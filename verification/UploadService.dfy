/**
 `UploadService` as the code runs it. Every call is an uninterrupted run of the machine in `Protocol`
 and joins the backend's trace, so whatever holds of every run of the machine holds of every sequence
 of these calls.
 */
module UploadServices {
  import opened Common
  import opened Text
  import opened Manifest
  import opened Ordering
  import opened StagingFile
  import opened BlobStores
  import opened Protocol
  import opened Uninterrupted
  import opened Backends
  import opened ManifestAgreement
  import opened SessionSafety
  import opened WholeUploads

  /** The session in flight for this content of this build, whoever it belongs to. */
  ghost predicate InFlight(s: State, session: Session, build: BuildId, sha256: Digest) {
    && session in s.sessions.Values
    && session.buildId == build && session.blobSha256 == sha256 && session.status == Pending
  }

  /** What a negotiation answers while a session is in flight: itself to its user, a conflict to anybody else. */
  function Resumption(session: Session, user: UserId): Result<Session> {
    if session.userId == user then Ok(session) else Err(Conflict)
  }

  /**
   What a negotiation nothing speaks against comes to: the session in flight, the only one if the tables
   have been filled from the start, or a new one.
   */
  ghost predicate Negotiated(p: Settings, s: State, user: UserId, build: BuildId, sha256: Digest, sizeBytes: nat,
                             id: SessionId, result: Result<Session>, fromTheStart: bool, before: seq<Event>,
                             after: seq<Event>)
  {
    if HasOpenSession(s, build, sha256) then
      && after == before
      && (exists session :: InFlight(s, session, build, sha256) && result == Resumption(session, user))
      && (fromTheStart ==> forall session :: InFlight(s, session, build, sha256) ==> result == Resumption(session, user))
    else
      && result == Ok(Session(id, build, user, sha256, sizeBytes, 0, Pending, s.now + p.sessionSeconds))
      && after == before + [BeginUpload(id, build, user, sha256, sizeBytes, p.sessionSeconds)]
  }

  lemma NothingSpeaksAgainst(p: Settings, s: State, user: UserId, build: BuildId, sha256: Digest, sizeBytes: int,
                             id: SessionId)
    requires BeginRefusal(p, s, user, build, sha256, sizeBytes) == None
    requires id !in s.sessions && id !in s.accepted && id !in s.staging
    ensures 0 <= sizeBytes <= p.maxBlobBytes && MayCharge(s.accounts, user, sizeBytes)
    ensures sha256 !in s.blobs && build in s.builds && s.builds[build].status == Uploading
    ensures |OpenSessions(s.sessions, s.now, user)| < p.maxOpenSessions
    ensures !HasOpenSession(s, build, sha256) ==> MayOpen(p, s, id, build, user, sha256, sizeBytes)
  {
    hide IsSha256Hex, OpenSessions, HasOpenSession;
  }

  lemma OneIsInFlight(s: State, a: Session, b: Session, build: BuildId, sha256: Digest)
    requires OneOpenPerContent(s.sessions) && InFlight(s, a, build, sha256) && InFlight(s, b, build, sha256)
    ensures a == b
  {
    var i :| i in s.sessions && s.sessions[i] == a;
    var j :| j in s.sessions && s.sessions[j] == b;
  }

  lemma IndexHolds(backend: Backend)
    requires backend.Valid() && Initial(backend.origin)
    ensures OneOpenPerContent(backend.sessions)
  {
    hide Run, OneOpenPerContent;
    NothingIsOutstandingAtTheStart(backend.p, backend.origin);
    AtMostOneOpenSession(backend.p, backend.origin, backend.trace);
  }

  /** A new session counts for its user only. */
  lemma OneMoreOpen(sessions: map<SessionId, Session>, now: int, id: SessionId, session: Session, user: UserId)
    ensures var before, after := OpenSessions(sessions, now, user), OpenSessions(sessions[id := session], now, user);
            |after| <= |before| + 1 && (session.userId != user ==> |after| <= |before|)
  {
    var before, after := OpenSessions(sessions, now, user), OpenSessions(sessions[id := session], now, user);
    if session.userId != user {
      SubsetIsNoLarger(after, before);
    } else {
      SubsetIsNoLarger(after, before + {id});
    }
  }

  /** No user gets past the number of sessions allowed. */
  ghost predicate AllowanceKept(p: Settings, before: map<SessionId, Session>, after: map<SessionId, Session>, now: int) {
    forall user :: |OpenSessions(before, now, user)| <= p.maxOpenSessions ==>
      |OpenSessions(after, now, user)| <= p.maxOpenSessions
  }

  lemma NothingNewIsAllowed(p: Settings, sessions: map<SessionId, Session>, now: int)
    ensures AllowanceKept(p, sessions, sessions, now)
  {
  }

  lemma OneMoreIsAllowed(p: Settings, before: map<SessionId, Session>, after: map<SessionId, Session>, now: int,
                         user: UserId, id: SessionId, result: Result<Session>)
    requires |OpenSessions(before, now, user)| < p.maxOpenSessions
    requires after == before || (result.Ok? && result.value.userId == user && after == before[id := result.value])
    ensures AllowanceKept(p, before, after, now)
  {
    hide OpenSessions;
    if after != before {
      forall anyone | |OpenSessions(before, now, anyone)| <= p.maxOpenSessions
        ensures |OpenSessions(after, now, anyone)| <= p.maxOpenSessions
      {
        OneMoreOpen(before, now, id, result.value, anyone);
      }
    }
  }

  lemma SubsetIsNoLarger<T>(a: set<T>, b: set<T>)
    requires a <= b
    ensures |a| <= |b|
  {
    assert b == a + (b - a);
  }

  lemma CommittedIsGone(staging: map<SessionId, Content>, id: SessionId, sha256: Digest, io: Io, hash: Content -> Digest)
    ensures CommitSucceeds(staging, id, sha256, io, hash) ==> StagingAfterCommit(staging, id, sha256) == staging - {id}
  {
  }

  function MarkOf(id: SessionId, status: SessionStatus): Action
    requires status != Pending
  {
    if status == Completed then MarkCompleted(id) else MarkAborted(id)
  }

  /** How a chunk's request ends for its session: it fails exactly when it leaves the session aborted. */
  ghost predicate ChunkEnds(reserved: Option<Session>, id: SessionId, result: Result<Session>,
                            before: map<SessionId, Session>, after: map<SessionId, Session>)
  {
    match reserved
    case None => result == Err(Conflict) && after == before
    case Some(session) =>
      && id in after && (result.Ok? <==> after[id].status != Aborted)
      && (result.Ok? ==>
           && result.value == after[id]
           && result.value == session.(status := if session.Complete() then Completed else Pending))
  }

  /** The range is handed out and written, and if it was the last one the session completes. */
  predicate ChunkLands(p: Settings, s: State, id: SessionId, offset: int, data: Content, writeIo: Io, commitIo: Io) {
    var reserved := Reservation(s.sessions, s.now, id, offset, data);
    && reserved.Some? && s.sessions[id].id == id
    && WriteSucceeds(s.staging, id, offset, data, writeIo)
    && (reserved.value.Complete() ==>
         Completes(p, s, reserved.value, StagingAfterWrite(s.staging, id, offset, data, writeIo), commitIo))
  }

  /** Given what `uploadChunk` checks beforehand, landing is succeeding. */
  lemma ChunkLandsOrNot(p: Settings, s: State, user: UserId, id: SessionId, offset: int, data: Content, writeIo: Io,
                        commitIo: Io)
    requires OwnIds(s.sessions)
    ensures ChunkIsPlausible(p, s, user, id, offset, data) ==>
              (ChunkLands(p, s, id, offset, data, writeIo, commitIo)
               <==> ChunkSucceeds(p, s, user, id, offset, data, writeIo, commitIo))
  {
    hide WriteSucceeds, StagingAfterWrite, CommitSucceeds, MayCharge;
  }

  lemma TablesCompose(s: State, t: State, u: State)
    requires SameTables(s, t) && SameTables(t, u)
    ensures SameTables(s, u)
  {
  }

  ghost function WithWrite(s: State, session: Session, staging: map<SessionId, Content>): State {
    s.(sessions := s.sessions[session.id := session], staging := staging)
  }

  /** A reserved range, once written, leaves what a good chunk leaves, up to the completion. */
  lemma WrittenChunk(s: State, id: SessionId, offset: int, data: Content, io: Io)
    requires Reservation(s.sessions, s.now, id, offset, data).Some? && s.sessions[id].id == id
    requires WriteSucceeds(s.staging, id, offset, data, io)
    ensures var session := Reservation(s.sessions, s.now, id, offset, data).value;
            var written := WithWrite(s, session, StagingAfterWrite(s.staging, id, offset, data, io));
            AfterGoodChunk(s, id, data) == if session.Complete() then AfterCompletion(written, session) else written
  {
    hide AfterCompletion, StagingFile.WriteAt;
  }

  ghost function WithHistory(s: State, requests: map<RequestId, Request>, accepted: map<SessionId, seq<Chunk>>,
                             leaked: map<UserId, nat>): State
  {
    s.(requests := requests, accepted := accepted, leaked := leaked)
  }

  lemma CompletionKeepsHistory(s: State, requests: map<RequestId, Request>, accepted: map<SessionId, seq<Chunk>>,
                               leaked: map<UserId, nat>, session: Session)
    ensures AfterCompletion(WithHistory(s, requests, accepted, leaked), session)
         == WithHistory(AfterCompletion(s, session), requests, accepted, leaked)
  {
    hide MayCharge, UsageAdded, StatusSet, StoredAfterCommit, RowInserted, Dropped;
    var t := WithHistory(s, requests, accepted, leaked);
    if session.blobSha256 in s.blobs {
      assert AfterCompletion(t, session).requests == requests;
    } else {
      assert AfterCompletion(t, session).requests == requests;
    }
  }

  lemma CompletionDependsOnTables(s: State, t: State, session: Session)
    requires SameTables(s, t)
    ensures SameTables(AfterCompletion(s, session), AfterCompletion(t, session))
  {
    hide AfterCompletion;
    CompletionKeepsHistory(t, s.requests, s.accepted, s.leaked, session);
  }

  lemma CompletesByTables(p: Settings, s: State, t: State, session: Session, staging: map<SessionId, Content>, io: Io)
    requires s.blobs == t.blobs && s.accounts == t.accounts
    ensures Completes(p, s, session, staging, io) <==> Completes(p, t, session, staging, io)
  {
    hide CommitSucceeds, MayCharge;
  }

  lemma LandingIgnoresRequests(p: Settings, s: State, requests: map<RequestId, Request>, id: SessionId, offset: int,
                               data: Content, writeIo: Io, commitIo: Io)
    ensures ChunkLands(p, s, id, offset, data, writeIo, commitIo)
       <==> ChunkLands(p, s.(requests := requests), id, offset, data, writeIo, commitIo)
  {
    hide StagingAfterWrite, CommitSucceeds, MayCharge, Reservation, WriteSucceeds;
  }

  lemma GoodChunkIgnoresRequests(s: State, requests: map<RequestId, Request>, id: SessionId, data: Content)
    requires id in s.sessions && s.sessions[id].id == id
    requires WriteSucceeds(s.staging, id, s.sessions[id].receivedBytes, data, Works)
    ensures SameTables(AfterGoodChunk(s, id, data), AfterGoodChunk(s.(requests := requests), id, data))
  {
    hide StagingAfterWrite, WriteSucceeds, AfterCompletion;
    var session := s.sessions[id].(receivedBytes := s.sessions[id].receivedBytes + |data|);
    var staging := StagingAfterWrite(s.staging, id, s.sessions[id].receivedBytes, data, Works);
    var written := WithWrite(s, session, staging);
    CompletionDependsOnTables(written, written.(requests := requests), session);
  }

  lemma LandsWell(p: Settings, s: State, id: SessionId, offset: int, data: Content, writeIo: Io, commitIo: Io)
    requires ChunkLands(p, s, id, offset, data, writeIo, commitIo)
    ensures id in s.sessions && s.sessions[id].id == id
    ensures WriteSucceeds(s.staging, id, s.sessions[id].receivedBytes, data, Works)
  {
    RangeIsReserved(s.sessions, s.now, id, offset, data);
  }

  lemma PlausibleChunks(p: Settings, s: State, event: Event)
    requires event.StartChunk? && ChunkIsPlausible(p, s, event.userId, event.sessionId, event.offset, event.data)
    ensures ProgramOf(p, s, event)
         == Some(Request(ChunkOf(event.sessionId), [Reserve(event.sessionId, event.offset, event.data)]))
    ensures Reservation(s.sessions, s.now, event.sessionId, event.offset, event.data)
         == Some(s.sessions[event.sessionId].(receivedBytes := event.offset + |event.data|))
  {
  }

  /** The finalization the sizes have been read for. */
  ghost function Prepared(p: Settings, s: State, build: BuildId, files: seq<ManifestEntry>, entrypoint: string,
                          launchArgs: string): Action
    requires AllRecorded(s, files)
  {
    Finalize(build, WithStoredSizes(s, files), entrypoint, launchArgs,
             p.sha256(CanonicalText(WithStoredSizes(s, files), entrypoint, launchArgs)))
  }

  lemma SizesDependOnRows(p: Settings, s: State, t: State, build: BuildId, entries: seq<ManifestEntry>, entrypoint: string,
                          launchArgs: string)
    requires s.blobs == t.blobs
    ensures AfterSizes(p, s, build, entries, entrypoint, launchArgs) == AfterSizes(p, t, build, entries, entrypoint, launchArgs)
  {
    hide CanonicalText;
    if AllRecorded(s, entries) {
      assert WithStoredSizes(s, entries) == WithStoredSizes(t, entries);
    }
  }

  lemma RangeIsReserved(sessions: map<SessionId, Session>, now: int, id: SessionId, offset: int, chunk: Content)
    ensures var reserved := Reservation(sessions, now, id, offset, chunk);
            reserved.Some? ==>
              && offset >= 0 && reserved.value.status == Pending
              && id in sessions && sessions[id].id == reserved.value.id && sessions[id].receivedBytes == offset
  {
  }

  class UploadService {
    const backend: Backend
    const p: Settings

    constructor (backend: Backend)
      ensures this.backend == backend && p == backend.p
    {
      this.backend := backend;
      p := backend.p;
    }

    ghost predicate Valid()
      reads this, backend, backend.store
    {
      backend.Valid() && backend.p == p
    }

    /** What the request has still to do. */
    ghost predicate Due(r: RequestId, program: seq<Action>)
      reads backend
    {
      r in backend.requests && backend.requests[r].program == program
    }

    /** The request of `event` is under way with this left to do. */
    ghost predicate Underway(before: seq<Event>, event: Event, program: seq<Action>)
      requires StartsRequest(event)
      reads this, backend, backend.store
    {
      Valid() && Extends(before, event, backend.trace) && Due(event.request, program)
    }

    // -------------------------------------------------------------------------
    // Opening a session
    // -------------------------------------------------------------------------

    /**
     `beginUpload`, for a user who may write the build. There is at most one session in flight: it is
     resumed if it is the caller's, and a conflict if not. Anything refused changes nothing, and no user
     gets past the number of sessions allowed.
     */
    method BeginUpload(user: UserId, build: BuildId, sha256: Digest, sizeBytes: int, id: SessionId)
      returns (result: Result<Session>)
      requires Valid()
      requires id !in backend.sessions && id !in backend.accepted && id !in backend.store.staging
      modifies backend`sessions, backend`accepted, backend`trace
      ensures Valid()
      ensures var s := old(backend.Snapshot());
              match BeginRefusal(p, s, user, build, sha256, sizeBytes)
              case Some(code) => result == Err(code) && backend.trace == old(backend.trace)
              case None =>
                && sizeBytes >= 0
                && Negotiated(p, s, user, build, sha256, sizeBytes, id, result, Initial(backend.origin), old(backend.trace),
                              backend.trace)
      ensures AllowanceKept(p, old(backend.sessions), backend.sessions, backend.now)
      ensures result.Ok? ==>
                && 0 <= sizeBytes <= p.maxBlobBytes && MayCharge(backend.accounts, user, sizeBytes)
                && sha256 !in backend.blobs && build in backend.builds && backend.builds[build].status == Uploading
      ensures old(backend.Quiet()) ==> backend.Quiet()
    {
      hide Run, IsSha256Hex, HasOpenSession, OwnIds, OpenSessions, OneAtATime, Idle, Initial, Negotiated;
      hide AllowanceKept, BeginRefusal;
      NothingNewIsAllowed(p, backend.sessions, backend.now);
      var refusal := CheckUpload(user, build, sha256, sizeBytes);
      if refusal.Some? {
        return Err(refusal.value);
      }
      NothingSpeaksAgainst(p, backend.Snapshot(), user, build, sha256, sizeBytes, id);
      result := OpenOrResume(user, build, sha256, sizeBytes, id);
      OneMoreIsAllowed(p, old(backend.sessions), backend.sessions, backend.now, user, id, result);
    }

    /** The checks of `beginUpload`, in order. */
    method CheckUpload(user: UserId, build: BuildId, sha256: Digest, sizeBytes: int) returns (refusal: Option<ErrorCode>)
      ensures refusal == BeginRefusal(p, backend.Snapshot(), user, build, sha256, sizeBytes)
    {
      hide IsSha256Hex, OpenSessions;
      if build !in backend.builds {
        return Some(NotFound);
      }
      if backend.builds[build].status != Uploading {
        return Some(Conflict);
      }
      if !IsSha256Hex(sha256) || sizeBytes < 0 || sizeBytes > p.maxBlobBytes {
        return Some(InvalidInput);
      }
      if sha256 in backend.blobs || |OpenSessions(backend.sessions, backend.now, user)| >= p.maxOpenSessions {
        return Some(Conflict);
      }
      if user !in backend.accounts {
        return Some(Unauthenticated);
      }
      if backend.accounts[user].usedBytes + sizeBytes > backend.accounts[user].quotaBytes {
        return Some(QuotaExceeded);
      }
      return None;
    }

    method OpenOrResume(user: UserId, build: BuildId, sha256: Digest, sizeBytes: nat, id: SessionId)
      returns (result: Result<Session>)
      requires Valid()
      requires !HasOpenSession(backend.Snapshot(), build, sha256) ==>
                 MayOpen(p, backend.Snapshot(), id, build, user, sha256, sizeBytes)
      modifies backend`sessions, backend`accepted, backend`trace
      ensures Valid()
      ensures backend.sessions == old(backend.sessions)
           || (result.Ok? && result.value.userId == user && backend.sessions == old(backend.sessions)[id := result.value])
      ensures Negotiated(p, old(backend.Snapshot()), user, build, sha256, sizeBytes, id, result, Initial(backend.origin),
                         old(backend.trace), backend.trace)
      ensures old(backend.Quiet()) ==> backend.Quiet()
    {
      hide Run, IsSha256Hex, HasOpenSession, OwnIds, MayOpen, OneAtATime, Idle, Initial, OneOpenPerContent;
      var open := backend.FindOpen(build, sha256);
      if open.Some? {
        ghost var s := backend.Snapshot();
        assert InFlight(s, open.value, build, sha256);
        if Initial(backend.origin) {
          IndexHolds(backend);
          forall session | InFlight(s, session, build, sha256)
            ensures session == open.value
          {
            OneIsInFlight(s, session, open.value, build, sha256);
          }
        }
        return if open.value.userId == user then Ok(open.value) else Err(Conflict);
      }
      var session := backend.CreateSession(id, build, user, sha256, sizeBytes, p.sessionSeconds);
      return Ok(session);
    }

    // -------------------------------------------------------------------------
    // Chunks
    // -------------------------------------------------------------------------

    ghost method Start(event: Event, program: seq<Action>)
      requires Valid() && StartsRequest(event) && event.request !in backend.requests
      requires var request := ProgramOf(p, backend.Snapshot(), event); request.Some? && request.value.program == program
      modifies backend`requests, backend`trace
      ensures Underway(old(backend.trace), event, program)
    {
      hide Run, Extends, OwnIds, ProgramOf;
      var before := backend.trace;
      backend.Begin(event);
      ExtendsByStart(before, event);
    }

    lemma Finish(before: seq<Event>, event: Event)
      requires StartsRequest(event) && Underway(before, event, [])
      ensures Valid() && Extends(before, event, backend.trace)
      ensures event.request in backend.requests && backend.requests[event.request].program == []
    {
    }

    // One call of the request each: what is left to do afterwards follows from the answer.

    method ReserveTurn(id: SessionId, offset: int, chunk: Content, ghost before: seq<Event>, ghost event: Event)
      returns (reserved: Option<Session>)
      requires StartsRequest(event) && Underway(before, event, [Reserve(id, offset, chunk)])
      modifies backend`sessions, backend`accepted, backend`requests, backend`trace
      ensures Underway(before, event, AfterReserve(reserved, offset, chunk))
      ensures reserved == Reservation(old(backend.sessions), backend.now, id, offset, chunk)
      ensures backend.sessions == WithReservation(old(backend.sessions), id, reserved)
      ensures reserved.Some? ==> reserved.value.id == id
    {
      hide Extends, Run, Backend.Snapshot, WithReservation;
      ExtendsByStep(before, event, backend.trace, Works);
      reserved := backend.ReserveBytes(id, offset, chunk, event.request);
      OnlyCall(Reserve(id, offset, chunk), AfterReserve(reserved, offset, chunk));
    }

    method WriteTurn(session: Session, offset: int, chunk: Content, io: Io, ghost before: seq<Event>, ghost event: Event)
      returns (written: Result<()>)
      requires StartsRequest(event) && Underway(before, event, [Write(session, offset, chunk)]) && offset >= 0
      modifies backend`requests, backend`trace, backend.store
      ensures Underway(before, event, AfterWrite(session, written.Ok?))
      ensures written.Ok? == WriteSucceeds(old(backend.store.staging), session.id, offset, chunk, io)
      ensures backend.store.staging == StagingAfterWrite(old(backend.store.staging), session.id, offset, chunk, io)
      ensures backend.store.stored == old(backend.store.stored)
    {
      hide Extends, Run, Backend.Snapshot, OwnIds, WriteSucceeds, WriteRefusal, AfterWrite, StagingAfterWrite;
      ExtendsByStep(before, event, backend.trace, io);
      written := backend.WriteStaging(session, offset, chunk, io, event.request);
      OnlyCall(Write(session, offset, chunk), AfterWrite(session, written.Ok?));
    }

    method CheckTurn(session: Session, ghost before: seq<Event>, ghost event: Event) returns (held: bool)
      requires StartsRequest(event) && Underway(before, event, [CheckRow(session)])
      modifies backend`requests, backend`trace
      ensures Underway(before, event, AfterCheck(session, held)) && held == (session.blobSha256 in backend.blobs)
    {
      hide Extends, Run, Backend.Snapshot, OwnIds, AfterCheck;
      ExtendsByStep(before, event, backend.trace, Works);
      held := backend.FindBySha256(session, event.request);
      OnlyCall(CheckRow(session), AfterCheck(session, held));
    }

    method ChargeTurn(session: Session, ghost before: seq<Event>, ghost event: Event) returns (charged: bool)
      requires StartsRequest(event) && Underway(before, event, [Charge(session)])
      modifies backend`accounts, backend`requests, backend`trace
      ensures Underway(before, event, AfterCharge(session, charged))
      ensures charged == MayCharge(old(backend.accounts), session.userId, session.declaredSizeBytes)
      ensures backend.accounts == UsageAdded(old(backend.accounts), session.userId, session.declaredSizeBytes)
    {
      hide Extends, Run, Backend.Snapshot, OwnIds, AfterCharge, MayCharge, UsageAdded;
      ExtendsByStep(before, event, backend.trace, Works);
      charged := backend.ChargeUpload(session, event.request);
      OnlyCall(Charge(session), AfterCharge(session, charged));
    }

    method CommitTurn(session: Session, io: Io, ghost before: seq<Event>, ghost event: Event) returns (committed: Result<()>)
      requires StartsRequest(event) && Underway(before, event, [Commit(session)])
      modifies backend`requests, backend`trace, backend.store
      ensures Underway(before, event, AfterCommit(session, committed.Ok?))
      ensures committed == if CommitSucceeds(old(backend.store.staging), session.id, session.blobSha256, io, p.sha256)
                           then Ok(())
                           else Err(CommitRefusal(old(backend.store.staging), session.id, session.blobSha256, p.sha256))
      ensures backend.store.staging == StagingAfterCommit(old(backend.store.staging), session.id, session.blobSha256)
      ensures backend.store.stored == StoredAfterCommit(old(backend.store.stored), old(backend.store.staging), session.id,
                                                        session.blobSha256, committed.Ok?)
    {
      hide Extends, Run, Backend.Snapshot, OwnIds, AfterCommit, CommitSucceeds, CommitRefusal, StagingAfterCommit;
      hide StoredAfterCommit;
      ExtendsByStep(before, event, backend.trace, io);
      committed := backend.CommitStaging(session, io, event.request);
      OnlyCall(Commit(session), AfterCommit(session, committed.Ok?));
    }

    method RecordTurn(session: Session, ghost before: seq<Event>, ghost event: Event) returns (stored: bool)
      requires StartsRequest(event) && Underway(before, event, [Record(session)])
      modifies backend`blobs, backend`requests, backend`trace
      ensures Underway(before, event, AfterRecord(session, stored)) && session.blobSha256 in backend.blobs
      ensures stored == (session.blobSha256 !in old(backend.blobs))
      ensures backend.blobs == RowInserted(old(backend.blobs), session.blobSha256,
                                           BlobRow(session.declaredSizeBytes, session.userId, backend.now))
    {
      hide Extends, Run, Backend.Snapshot, OwnIds, AfterRecord, RowInserted;
      ExtendsByStep(before, event, backend.trace, Works);
      stored := backend.RecordBlob(session, event.request);
      OnlyCall(Record(session), AfterRecord(session, stored));
    }

    method ReleaseTurn(session: Session, ghost before: seq<Event>, ghost event: Event, ghost rest: seq<Action>)
      requires StartsRequest(event)
      requires Underway(before, event, [Release(session.userId, session.declaredSizeBytes)] + rest)
      modifies backend`accounts, backend`requests, backend`trace
      ensures Underway(before, event, rest)
    {
      hide Extends, Run, Backend.Snapshot, OwnIds;
      ExtendsByStep(before, event, backend.trace, Works);
      backend.ReleaseUpload(session.userId, session.declaredSizeBytes, event.request);
      FirstCall(Release(session.userId, session.declaredSizeBytes), rest);
    }

    method MarkTurn(id: SessionId, status: SessionStatus, ghost before: seq<Event>, ghost event: Event, ghost rest: seq<Action>)
      requires StartsRequest(event) && status != Pending && Underway(before, event, [MarkOf(id, status)] + rest)
      modifies backend`sessions, backend`requests, backend`trace
      ensures Underway(before, event, rest)
      ensures backend.sessions == StatusSet(old(backend.sessions), id, status)
    {
      hide Extends, Run, Backend.Snapshot, OwnIds, StatusSet;
      ExtendsByStep(before, event, backend.trace, Works);
      backend.MarkSession(id, status, event.request);
      FirstCall(MarkOf(id, status), rest);
    }

    method DropStaging(id: SessionId, ghost before: seq<Event>, ghost event: Event, ghost rest: seq<Action>)
      requires StartsRequest(event) && Underway(before, event, [DiscardStaging(id)] + rest)
      modifies backend`requests, backend`trace, backend.store
      ensures Underway(before, event, rest)
      ensures backend.store.staging == old(backend.store.staging) - {id} && backend.store.stored == old(backend.store.stored)
    {
      hide Extends, Run, Backend.Snapshot, OwnIds;
      ExtendsByStep(before, event, backend.trace, Works);
      backend.Discard(id, event.request);
      FirstCall(DiscardStaging(id), rest);
    }

    // What the turns add up to.

    /** The staging file goes and the session is marked. */
    method DropAndMark(id: SessionId, status: SessionStatus, ghost before: seq<Event>, ghost event: Event)
      requires StartsRequest(event) && status != Pending
      requires Underway(before, event, [DiscardStaging(id), MarkOf(id, status)])
      modifies backend`sessions, backend`requests, backend`trace, backend.store
      ensures Underway(before, event, [])
      ensures backend.sessions == StatusSet(old(backend.sessions), id, status)
      ensures backend.store.staging == old(backend.store.staging) - {id} && backend.store.stored == old(backend.store.stored)
    {
      hide UploadService.Underway, StatusSet, MarkOf;
      TwoCalls(DiscardStaging(id), MarkOf(id, status));
      DropStaging(id, before, event, [MarkOf(id, status)] + []);
      MarkTurn(id, status, before, event, []);
    }

    /** The refund, then the mark. */
    method RefundAndMark(session: Session, status: SessionStatus, ghost before: seq<Event>, ghost event: Event)
      requires StartsRequest(event) && status != Pending
      requires Underway(before, event, [Release(session.userId, session.declaredSizeBytes), MarkOf(session.id, status)])
      modifies backend`accounts, backend`sessions, backend`requests, backend`trace
      ensures Underway(before, event, [])
      ensures backend.sessions == StatusSet(old(backend.sessions), session.id, status)
    {
      hide UploadService.Underway, StatusSet, MarkOf;
      TwoCalls(Release(session.userId, session.declaredSizeBytes), MarkOf(session.id, status));
      ReleaseTurn(session, before, event, [MarkOf(session.id, status)] + []);
      MarkTurn(session.id, status, before, event, []);
    }

    /** The charge has been made: commit and record, or give it back. */
    method CommitAndRecord(session: Session, io: Io, ghost before: seq<Event>, ghost event: Event) returns (result: Result<()>)
      requires StartsRequest(event) && Underway(before, event, [Commit(session)])
      modifies backend`accounts, backend`sessions, backend`blobs, backend`requests, backend`trace, backend.store
      ensures Underway(before, event, [])
      ensures result.Ok? ==> session.blobSha256 in backend.blobs
      ensures result.Ok? && session.blobSha256 !in old(backend.blobs) ==>
                && backend.accounts == old(backend.accounts)
                && backend.blobs == old(backend.blobs)[session.blobSha256 := BlobRow(session.declaredSizeBytes, session.userId,
                                                                                     backend.now)]
                && backend.store.staging == old(backend.store.staging) - {session.id}
                && backend.store.stored == StoredAfterCommit(old(backend.store.stored), old(backend.store.staging), session.id,
                                                             session.blobSha256, true)
      ensures result.Ok? == CommitSucceeds(old(backend.store.staging), session.id, session.blobSha256, io, p.sha256)
      ensures result.Err? ==>
                result.code == CommitRefusal(old(backend.store.staging), session.id, session.blobSha256, p.sha256)
      ensures backend.sessions == StatusSet(old(backend.sessions), session.id, if result.Ok? then Completed else Aborted)
    {
      hide UploadService.Underway, StatusSet, CommitSucceeds, CommitRefusal;
      CommittedIsGone(backend.store.staging, session.id, session.blobSha256, io, p.sha256);
      var committed := CommitTurn(session, io, before, event);
      if committed.Err? {
        RefundAndMark(session, Aborted, before, event);
        return committed;
      }
      var stored := RecordTurn(session, before, event);
      if !stored {
        RefundAndMark(session, Completed, before, event);
        return Ok(());
      }
      OneCall(MarkOf(session.id, Completed));
      MarkTurn(session.id, Completed, before, event, []);
      return Ok(());
    }

    /** `completeSession`: a charge nothing comes of is refunded. */
    method CompleteSession(session: Session, io: Io, ghost before: seq<Event>, ghost event: Event) returns (result: Result<()>)
      requires StartsRequest(event) && Underway(before, event, [CheckRow(session)])
      modifies backend`accounts, backend`sessions, backend`blobs, backend`requests, backend`trace, backend.store
      ensures Underway(before, event, [])
      ensures result.Ok? ==> session.blobSha256 in backend.blobs
      ensures result.Ok? == Completes(p, old(backend.Snapshot()), session, old(backend.store.staging), io)
      ensures result.Ok? ==> SameTables(AfterCompletion(old(backend.Snapshot()), session), backend.Snapshot())
      ensures backend.sessions == StatusSet(old(backend.sessions), session.id, if result.Ok? then Completed else Aborted)
    {
      hide UploadService.Underway, StatusSet, CommitSucceeds, CommitRefusal, MayCharge;
      var held := CheckTurn(session, before, event);
      if held {
        DropAndMark(session.id, Completed, before, event);
        return Ok(());
      }
      var charged := ChargeTurn(session, before, event);
      if !charged {
        DropAndMark(session.id, Aborted, before, event);
        return Err(QuotaExceeded);
      }
      result := CommitAndRecord(session, io, before, event);
    }

    /** What `abortUpload` and a failed write do. */
    method Abort(id: SessionId, ghost before: seq<Event>, ghost event: Event)
      requires StartsRequest(event) && Underway(before, event, AbortProgram(id))
      modifies backend`sessions, backend`requests, backend`trace, backend.store
      ensures Underway(before, event, []) && id !in backend.store.staging
      ensures backend.sessions == StatusSet(old(backend.sessions), id, Aborted)
    {
      hide UploadService.Underway, StatusSet;
      TwoCalls(MarkAborted(id), DiscardStaging(id));
      MarkTurn(id, Aborted, before, event, [DiscardStaging(id)] + []);
      DropStaging(id, before, event, []);
    }

    /** Reserve first, write second: the database decides who owns the range. */
    method StoreChunk(id: SessionId, offset: int, chunk: Content, writeIo: Io, commitIo: Io, ghost before: seq<Event>,
                      ghost event: Event) returns (result: Result<Session>)
      requires StartsRequest(event) && Underway(before, event, [Reserve(id, offset, chunk)])
      modifies backend`accounts, backend`sessions, backend`blobs, backend`accepted, backend`requests, backend`trace
      modifies backend.store
      ensures Underway(before, event, [])
      ensures result.Ok? ==> result.value.blobSha256 in backend.blobs || result.value.status == Pending
      ensures ChunkEnds(Reservation(old(backend.sessions), backend.now, id, offset, chunk), id, result,
                        old(backend.sessions), backend.sessions)
      ensures result.Ok? <==> ChunkLands(p, old(backend.Snapshot()), id, offset, chunk, writeIo, commitIo)
      ensures result.Ok? ==> SameTables(AfterGoodChunk(old(backend.Snapshot()), id, chunk), backend.Snapshot())
    {
      hide UploadService.Underway, Reservation, WriteSucceeds, StagingAfterWrite, Completes, AfterCompletion, AfterGoodChunk;
      RangeIsReserved(backend.sessions, backend.now, id, offset, chunk);
      ghost var s := backend.Snapshot();
      var reserved := ReserveTurn(id, offset, chunk, before, event);
      if reserved.None? {
        return Err(Conflict);
      }
      var session := reserved.value;
      var written := WriteTurn(session, offset, chunk, writeIo, before, event);
      if written.Err? {
        Abort(session.id, before, event);
        return Err(written.code);
      }
      WrittenChunk(s, id, offset, chunk, writeIo);
      ghost var t := WithWrite(s, session, StagingAfterWrite(s.staging, id, offset, chunk, writeIo));
      assert SameTables(t, backend.Snapshot());
      if !session.Complete() {
        return Ok(session);
      }
      CompletionDependsOnTables(t, backend.Snapshot(), session);
      CompletesByTables(p, s, backend.Snapshot(), session, t.staging, commitIo);
      var completed := CompleteSession(session, commitIo, before, event);
      if completed.Err? {
        return Err(completed.code);
      }
      return Ok(session.(status := Completed));
    }

    /**
     `uploadChunk`. A refused chunk changes nothing. An accepted one is the run of one chunk request
     from its reservation to its last call. It succeeds exactly when the range fits, can be written
     and, if it is the last, the content can be charged and hashes as declared; otherwise the session
     is aborted.
     */
    method UploadChunk(user: UserId, id: SessionId, offset: int, chunk: Content, writeIo: Io, commitIo: Io, ghost r: RequestId)
      returns (result: Result<Session>)
      requires Valid() && r !in backend.requests
      modifies backend, backend.store
      ensures Valid()
      ensures var refusal := ChunkRefusal(p, old(backend.Snapshot()), user, id, offset, chunk);
              if refusal.Some? then result == Err(refusal.value) && backend.trace == old(backend.trace)
              else
                && Underway(old(backend.trace), StartChunk(r, user, id, offset, chunk), [])
                && id in backend.sessions && (result.Ok? <==> backend.sessions[id].status != Aborted)
      ensures result.Ok? <==> ChunkSucceeds(p, old(backend.Snapshot()), user, id, offset, chunk, writeIo, commitIo)
      ensures result.Ok? ==>
                && SameTables(AfterGoodChunk(old(backend.Snapshot()), id, chunk), backend.Snapshot())
                && id in backend.sessions && result.value == backend.sessions[id]
      ensures old(backend.Quiet()) ==> backend.Quiet()
    {
      hide Run, OneAtATime, Idle, UploadService.Underway, ChunkLands, AfterGoodChunk, SameTables, WriteSucceeds;
      ChunkLandsOrNot(p, backend.Snapshot(), user, id, offset, chunk, writeIo, commitIo);
      if id !in backend.sessions || backend.sessions[id].userId != user {
        return Err(NotFound);
      }
      var session := backend.sessions[id];
      if session.status != Pending || session.expiresAt <= backend.now {
        return Err(Conflict);
      }
      if |chunk| > p.maxChunkBytes {
        return Err(InvalidInput);
      }
      if offset != session.receivedBytes {
        return Err(Conflict);
      }
      if offset + |chunk| > session.declaredSizeBytes {
        return Err(InvalidInput);
      }
      result := AcceptChunk(user, id, offset, chunk, writeIo, commitIo, r);
    }

    /** A chunk nothing speaks against. */
    method AcceptChunk(user: UserId, id: SessionId, offset: int, chunk: Content, writeIo: Io, commitIo: Io, ghost r: RequestId)
      returns (result: Result<Session>)
      requires Valid() && r !in backend.requests
      requires ChunkIsPlausible(p, backend.Snapshot(), user, id, offset, chunk)
      modifies backend, backend.store
      ensures Underway(old(backend.trace), StartChunk(r, user, id, offset, chunk), [])
      ensures Valid() && id in backend.sessions && (result.Ok? <==> backend.sessions[id].status != Aborted)
      ensures result.Ok? <==> ChunkLands(p, old(backend.Snapshot()), id, offset, chunk, writeIo, commitIo)
      ensures result.Ok? ==>
                && SameTables(AfterGoodChunk(old(backend.Snapshot()), id, chunk), backend.Snapshot())
                && result.value == backend.sessions[id]
      ensures old(backend.Quiet()) ==> backend.Quiet()
    {
      hide Run, OneAtATime, Idle, ProgramOf, Reservation, UploadService.Underway, ChunkLands, AfterGoodChunk, SameTables;
      ghost var s, before, event := backend.Snapshot(), backend.trace, StartChunk(r, user, id, offset, chunk);
      PlausibleChunks(p, s, event);
      Start(event, [Reserve(id, offset, chunk)]);
      ghost var requests := backend.requests;
      LandingIgnoresRequests(p, s, requests, id, offset, chunk, writeIo, commitIo);
      assert backend.Snapshot() == s.(requests := requests);
      result := StoreChunk(id, offset, chunk, writeIo, commitIo, before, event);
      Finish(before, event);
      if result.Ok? {
        LandsWell(p, s, id, offset, chunk, writeIo, commitIo);
        GoodChunkIgnoresRequests(s, requests, id, chunk);
        TablesCompose(AfterGoodChunk(s, id, chunk), AfterGoodChunk(s.(requests := requests), id, chunk), backend.Snapshot());
      }
      if old(backend.Quiet()) {
        backend.StaysQuiet(before, event);
      }
    }

    /** `abortUpload`: what is staged goes, whatever was under way. */
    method AbortUpload(user: UserId, id: SessionId, ghost r: RequestId) returns (result: Result<()>)
      requires Valid() && r !in backend.requests
      modifies backend, backend.store
      ensures Valid()
      ensures result.Ok? <==> id in old(backend.sessions) && old(backend.sessions)[id].userId == user
      ensures result.Ok? ==> Underway(old(backend.trace), StartAbort(r, user, id), []) && id !in backend.store.staging
      ensures result.Err? ==> result.code == NotFound && backend.trace == old(backend.trace)
      ensures old(backend.Quiet()) ==> backend.Quiet()
    {
      hide Run, Extends, OneAtATime, Idle;
      if id !in backend.sessions || backend.sessions[id].userId != user {
        return Err(NotFound);
      }
      ghost var before := backend.trace;
      backend.Begin(StartAbort(r, user, id));
      ExtendsByStart(before, StartAbort(r, user, id));
      Abort(id, before, StartAbort(r, user, id));
      if old(backend.Quiet()) {
        backend.StaysQuiet(before, StartAbort(r, user, id));
      }
      return Ok(());
    }

    /**
     `sweepExpiredSessions` over what one `findExpired` returned: each staging file first, then the
     row. Nothing of what was listed is left.
     */
    method SweepExpiredSessions(expired: seq<SessionId>, ghost r: RequestId) returns (reclaimed: nat)
      requires Valid() && r !in backend.requests && |expired| <= SWEEP_BATCH
      requires forall k :: 0 <= k < |expired| ==> IsExpired(backend.Snapshot(), expired[k])
      modifies backend, backend.store
      ensures Underway(old(backend.trace), StartSweep(r, expired), [])
      ensures forall id <- expired :: id !in backend.sessions && id !in backend.store.staging
      ensures reclaimed <= |expired| && (AllDistinct(expired) ==> reclaimed == |expired|)
      ensures old(backend.Quiet()) ==> backend.Quiet()
    {
      hide Run, Extends, IsExpired, SweepProgram, AllDistinct, OneAtATime, Idle;
      ghost var before := backend.trace;
      ghost var event := StartSweep(r, expired);
      ExpiredIsThere(backend.Snapshot(), expired);
      SweepStarts(p, backend.Snapshot(), event);
      backend.Begin(event);
      ExtendsByStart(before, event);
      reclaimed := SweepAll(expired, before, event);
      if old(backend.Quiet()) {
        backend.StaysQuiet(before, event);
      }
    }

    method SweepAll(expired: seq<SessionId>, ghost before: seq<Event>, ghost event: Event) returns (reclaimed: nat)
      requires StartsRequest(event) && Underway(before, event, SweepProgram(expired))
      requires forall id <- expired :: id in backend.sessions
      modifies backend, backend.store
      ensures Underway(before, event, [])
      ensures forall id <- expired :: id !in backend.sessions && id !in backend.store.staging
      ensures reclaimed <= |expired| && (AllDistinct(expired) ==> reclaimed == |expired|)
    {
      hide Run, Extends, Backend.Snapshot, SweepProgram, OwnIds, AllDistinct, Swept, Due;
      reclaimed := 0;
      var i := 0;
      assert expired[0..] == expired;
      NothingSweptYet(expired, backend.sessions, backend.store.staging);
      while i < |expired|
        invariant 0 <= i <= |expired|
        invariant Swept(expired, i, backend.sessions, backend.store.staging, reclaimed)
        invariant Underway(before, event, SweepProgram(expired[i..]))
        modifies backend, backend.store
      {
        SweepGoesOn(expired, i);
        OneMoreSwept(expired, i, backend.sessions, backend.store.staging, reclaimed);
        var deleted := SweepOne(expired[i], before, event, SweepProgram(expired[i + 1..]));
        reclaimed := if deleted then reclaimed + 1 else reclaimed;
        i := i + 1;
      }
      NothingToSweep(expired);
      AllAreSwept(expired, backend.sessions, backend.store.staging, reclaimed);
    }

    method SweepOne(id: SessionId, ghost before: seq<Event>, ghost event: Event, ghost rest: seq<Action>)
      returns (deleted: bool)
      requires StartsRequest(event) && Underway(before, event, [DiscardStaging(id)] + ([DeleteSession(id)] + rest))
      modifies backend, backend.store
      ensures Underway(before, event, rest)
      ensures deleted <==> id in old(backend.sessions)
      ensures backend.sessions == old(backend.sessions) - {id}
      ensures backend.store.staging == old(backend.store.staging) - {id}
    {
      hide Extends, Run, Backend.Snapshot, OwnIds;
      DropStaging(id, before, event, [DeleteSession(id)] + rest);
      ExtendsByStep(before, event, backend.trace, Works);
      deleted := backend.DeleteById(id, event.request);
      FirstCall(DeleteSession(id), rest);
    }

    // -------------------------------------------------------------------------
    // Builds
    // -------------------------------------------------------------------------

    /** The distinct digests of a manifest, in the order they appear. */
    method DistinctBlobs(files: seq<ManifestEntry>) returns (distinct: seq<Digest>)
      ensures forall h :: h in distinct <==> exists k :: 0 <= k < |files| && files[k].blobSha256 == h
      ensures forall i, j :: 0 <= i < j < |distinct| ==> distinct[i] != distinct[j]
    {
      distinct := [];
      var seen: set<Digest> := {};
      var i := 0;
      while i < |files|
        invariant 0 <= i <= |files|
        invariant forall h :: h in distinct <==> exists k :: 0 <= k < i && files[k].blobSha256 == h
        invariant forall h :: h in distinct <==> h in seen
        invariant forall i, j :: 0 <= i < j < |distinct| ==> distinct[i] != distinct[j]
      {
        if files[i].blobSha256 !in seen {
          seen := seen + {files[i].blobSha256};
          distinct := distinct + [files[i].blobSha256];
        }
        i := i + 1;
      }
    }

    /** The submitted entries with sizes from the store, never from the request. */
    method SizeEntries(files: seq<ManifestEntry>, sizes: map<Digest, nat>) returns (sized: seq<ManifestEntry>)
      requires AllRecorded(backend.Snapshot(), files)
      requires forall k :: 0 <= k < |files| ==>
                 files[k].blobSha256 in sizes && sizes[files[k].blobSha256] == backend.blobs[files[k].blobSha256].sizeBytes
      ensures sized == WithStoredSizes(backend.Snapshot(), files)
    {
      ghost var expected := WithStoredSizes(backend.Snapshot(), files);
      sized := [];
      var i := 0;
      while i < |files|
        invariant 0 <= i <= |files| && sized == expected[..i]
      {
        sized := sized + [files[i].(sizeBytes := sizes[files[i].blobSha256])];
        i := i + 1;
      }
    }

    /** `finalizeBuild`: a valid manifest of recorded blobs becomes a ready build, once. */
    method FinalizeBuild(build: BuildId, files: seq<ManifestEntry>, rawEntrypoint: string, launchArgs: string,
                         ghost r: RequestId) returns (result: Result<BuildRow>)
      requires Valid() && r !in backend.requests
      modifies backend
      ensures Valid()
      ensures !MayFinalize(old(backend.Snapshot()), build, files, rawEntrypoint, launchArgs) ==>
                result.Err? && backend.trace == old(backend.trace)
      ensures MayFinalize(old(backend.Snapshot()), build, files, rawEntrypoint, launchArgs) ==>
                && Underway(old(backend.trace), StartFinalize(r, build, files, rawEntrypoint, launchArgs), [])
                && (result.Ok? <==> AllRecorded(old(backend.Snapshot()), files))
                && (result.Err? ==> result.code == InvalidInput)
      ensures result.Ok? <==>
                && build in old(backend.builds) && old(backend.builds)[build].status == Uploading
                && IsValidManifest(files, Trim(rawEntrypoint)) && |launchArgs| <= MAX_LAUNCH_ARGS_LENGTH
                && forall k :: 0 <= k < |files| ==> files[k].blobSha256 in old(backend.blobs)
      ensures result.Ok? ==>
                && build in backend.builds && backend.builds[build] == result.value && result.value.status == Ready
                && AllRecorded(old(backend.Snapshot()), files)
                && result.value.files == FilesOf(WithStoredSizes(old(backend.Snapshot()), files))
                && result.value.manifestSha256
                   == p.sha256(CanonicalText(WithStoredSizes(old(backend.Snapshot()), files), Trim(rawEntrypoint), launchArgs))
      ensures old(backend.Quiet()) ==> backend.Quiet()
    {
      hide Run, Extends, CanonicalText, Trim, IsValidManifest, FilesOf, OneAtATime, Idle;
      if build !in backend.builds {
        return Err(NotFound);
      }
      if backend.builds[build].status != Uploading {
        return Err(Conflict);
      }
      var entrypoint := Trim(rawEntrypoint);
      if |launchArgs| > MAX_LAUNCH_ARGS_LENGTH {
        return Err(InvalidInput);
      }
      var check := ValidateManifest(files, entrypoint);
      if check.Err? {
        return Err(check.code);
      }
      result := FinalizeValid(build, files, rawEntrypoint, launchArgs, r);
      if old(backend.Quiet()) {
        backend.StaysQuiet(old(backend.trace), StartFinalize(r, build, files, rawEntrypoint, launchArgs));
      }
    }

    method FinalizeValid(build: BuildId, files: seq<ManifestEntry>, rawEntrypoint: string, launchArgs: string,
                         ghost r: RequestId) returns (result: Result<BuildRow>)
      requires Valid() && r !in backend.requests
      requires MayFinalize(backend.Snapshot(), build, files, rawEntrypoint, launchArgs)
      modifies backend
      ensures Underway(old(backend.trace), StartFinalize(r, build, files, rawEntrypoint, launchArgs), [])
      ensures result.Ok? <==> AllRecorded(old(backend.Snapshot()), files)
      ensures result.Err? ==> result.code == InvalidInput
      ensures result.Ok? ==>
                && build in backend.builds && backend.builds[build] == result.value && result.value.status == Ready
                && result.value.files == FilesOf(WithStoredSizes(old(backend.Snapshot()), files))
                && result.value.manifestSha256
                   == p.sha256(CanonicalText(WithStoredSizes(old(backend.Snapshot()), files), Trim(rawEntrypoint), launchArgs))
    {
      hide UploadService.Underway, Run, CanonicalText, Trim, IsValidManifest, UniquePaths, FilesOf, Prepared;
      var entrypoint := Trim(rawEntrypoint);
      ghost var before, event := backend.trace, StartFinalize(r, build, files, rawEntrypoint, launchArgs);
      ghost var s := backend.Snapshot();
      ValidManifestsHaveUniquePaths(files, entrypoint);
      Start(event, [ReadSizes(build, files, entrypoint, launchArgs)]);

      var distinct := DistinctBlobs(files);
      var sizes := backend.FindMany(distinct);
      FoundAllIffRecorded(s, files, distinct, sizes);
      SizesTurn(s, build, files, entrypoint, launchArgs, before, event);
      if |sizes| != |distinct| {
        return Err(InvalidInput);
      }
      result := SizeAndSubmit(s, build, files, sizes, entrypoint, launchArgs, before, event);
    }

    ghost method SizesTurn(s: State, build: BuildId, files: seq<ManifestEntry>, entrypoint: string, launchArgs: string,
                           before: seq<Event>, event: Event)
      requires StartsRequest(event) && Underway(before, event, [ReadSizes(build, files, entrypoint, launchArgs)])
      requires s.blobs == backend.blobs
      modifies backend`requests, backend`trace
      ensures if AllRecorded(s, files) then Underway(before, event, [Prepared(p, s, build, files, entrypoint, launchArgs)])
              else Underway(before, event, [])
    {
      hide Run, Extends, OwnIds, CanonicalText;
      var now := backend.Snapshot();
      SizesDependOnRows(p, s, now, build, files, entrypoint, launchArgs);
      ExtendsByStep(before, event, backend.trace, Works);
      backend.SizesRead(build, files, entrypoint, launchArgs, event.request);
      OnlyCall(ReadSizes(build, files, entrypoint, launchArgs), AfterSizes(p, s, build, files, entrypoint, launchArgs));
    }

    /** The submitted entries get their sizes and go to the store. */
    method SizeAndSubmit(ghost s: State, build: BuildId, files: seq<ManifestEntry>, sizes: map<Digest, nat>,
                         entrypoint: string, launchArgs: string, ghost before: seq<Event>, ghost event: Event)
      returns (result: Result<BuildRow>)
      requires StartsRequest(event) && UniquePaths(files) && AllRecorded(s, files)
      requires Underway(before, event, [Prepared(p, s, build, files, entrypoint, launchArgs)])
      requires s.blobs == backend.blobs && build in backend.builds && backend.builds[build].status == Uploading
      requires forall k :: 0 <= k < |files| ==>
                 files[k].blobSha256 in sizes && sizes[files[k].blobSha256] == backend.blobs[files[k].blobSha256].sizeBytes
      modifies backend
      ensures Underway(before, event, []) && result.Ok? && build in backend.builds
      ensures backend.builds[build] == result.value
      ensures result.value == BuildRow(Ready, FilesOf(WithStoredSizes(s, files)),
                                       p.sha256(CanonicalText(WithStoredSizes(s, files), entrypoint, launchArgs)),
                                       entrypoint, launchArgs)
    {
      hide UploadService.Underway, Run, CanonicalText, UniquePaths, FilesOf;
      var sized := SizeEntries(files, sizes);
      assert sized == WithStoredSizes(s, files);
      StoredSizesKeepPaths(s, files);
      StillRecorded(s, files);
      result := Submit(build, sized, entrypoint, launchArgs, before, event);
    }

    /** The manifest is hashed over its canonical document, and one gated statement takes it. */
    method Submit(build: BuildId, sized: seq<ManifestEntry>, entrypoint: string, launchArgs: string,
                  ghost before: seq<Event>, ghost event: Event) returns (result: Result<BuildRow>)
      requires StartsRequest(event) && UniquePaths(sized)
      requires Underway(before, event, [Finalize(build, sized, entrypoint, launchArgs,
                                                 p.sha256(CanonicalText(sized, entrypoint, launchArgs)))])
      requires MayBecomeReady(backend.builds, backend.blobs, build, FilesOf(sized))
      modifies backend
      ensures Underway(before, event, []) && result.Ok?
      ensures build in backend.builds && backend.builds[build] == result.value
      ensures result.value == BuildRow(Ready, FilesOf(sized), p.sha256(CanonicalText(sized, entrypoint, launchArgs)),
                                       entrypoint, launchArgs)
    {
      hide Run, Extends, CanonicalText, UniquePaths, MayBecomeReady, Backend.Snapshot, FilesOf;
      var document := CanonicalManifestDocument(sized, entrypoint, launchArgs);
      var manifestSha256 := p.sha256(document);
      ExtendsByStep(before, event, backend.trace, Works);
      var finalized := backend.FinalizeRow(build, sized, entrypoint, launchArgs, manifestSha256, event.request);
      OnlyCall(Finalize(build, sized, entrypoint, launchArgs, manifestSha256), []);
      if !finalized {
        return Err(Conflict);
      }
      return Ok(backend.builds[build]);
    }

    // -------------------------------------------------------------------------
    // Serving
    // -------------------------------------------------------------------------

    /** `filesFor`: the rows of a build joined with their blobs, in an order the caller cannot rely on. */
    method FilesFor(row: BuildRow) returns (rows: seq<ManifestEntry>)
      ensures FilesPresent(backend.Snapshot(), row.files) ==>
                multiset(rows) == multiset(JoinedEntries(backend.Snapshot(), row.files))
    {
      rows := [];
      var k := 0;
      while k < |row.files|
        invariant 0 <= k <= |row.files|
        invariant FilesPresent(backend.Snapshot(), row.files) ==>
                    rows == JoinedEntries(backend.Snapshot(), row.files)[..k]
      {
        var file := row.files[k];
        if file.blobSha256 in backend.blobs {
          rows := rows + [ManifestEntry(file.relativePath, file.blobSha256, backend.blobs[file.blobSha256].sizeBytes,
                                        file.isExecutable)];
        }
        k := k + 1;
      }
      if FilesPresent(backend.Snapshot(), row.files) {
        assert JoinedEntries(backend.Snapshot(), row.files)[..k] == JoinedEntries(backend.Snapshot(), row.files);
      }
      rows := SortBy(rows, PathOf);
    }

    /**
     `manifest`, for a user who may read the build. After every run in which finalizations found the
     sizes they read, and so after every run of calls like these, the document hashes to its record.
     */
    method ServeManifest(build: BuildId) returns (r: Result<(Digest, string)>)
      requires Valid()
      ensures build !in backend.builds || backend.builds[build].status != Ready ==> r == Err(NotFound)
      ensures build in backend.builds && backend.builds[build].status == Ready ==>
                r.Ok? && r.value.0 == backend.builds[build].manifestSha256
      ensures r.Ok? && Initial(backend.origin) && SettledRun(p, backend.origin, backend.trace) ==>
                p.sha256(r.value.1) == r.value.0
    {
      hide Run, CanonicalText, SettledRun, UniquePaths;
      if build !in backend.builds || backend.builds[build].status != Ready {
        return Err(NotFound);
      }
      var row := backend.builds[build];
      var rows := FilesFor(row);
      var json := CanonicalManifestDocument(rows, row.entrypoint, row.launchArgs);
      if Initial(backend.origin) && SettledRun(p, backend.origin, backend.trace) {
        ServedManifestHashesToItsRecord(p, backend.origin, backend.trace, build, rows);
      }
      return Ok((row.manifestSha256, json));
    }
  }

  lemma ExpiredIsThere(s: State, expired: seq<SessionId>)
    requires forall k :: 0 <= k < |expired| ==> IsExpired(s, expired[k])
    ensures forall k :: 0 <= k < |expired| ==> expired[k] in s.sessions
  {
  }

  lemma SweepStarts(p: Settings, s: State, event: Event)
    requires event.StartSweep? && |event.expired| <= SWEEP_BATCH
    requires forall k :: 0 <= k < |event.expired| ==> IsExpired(s, event.expired[k])
    ensures ProgramOf(p, s, event) == Some(Request(Housekeeping, SweepProgram(event.expired)))
  {
    hide IsExpired, SweepProgram;
  }

  ghost predicate AllDistinct(ids: seq<SessionId>) {
    forall i, j :: 0 <= i < j < |ids| ==> ids[i] != ids[j]
  }

  /** The first `i` are gone; the others are all there and every turn has counted, unless one was listed twice. */
  ghost predicate Swept(expired: seq<SessionId>, i: nat, sessions: map<SessionId, Session>, staging: map<SessionId, Content>,
                        reclaimed: nat)
  {
    && i <= |expired| && reclaimed <= i && (AllDistinct(expired) ==> reclaimed == i)
    && (forall k :: 0 <= k < i ==> expired[k] !in sessions && expired[k] !in staging)
    && (AllDistinct(expired) ==> forall k :: i <= k < |expired| ==> expired[k] in sessions)
  }

  lemma NothingSweptYet(expired: seq<SessionId>, sessions: map<SessionId, Session>, staging: map<SessionId, Content>)
    requires forall id <- expired :: id in sessions
    ensures Swept(expired, 0, sessions, staging, 0)
  {
  }

  lemma OneMoreSwept(expired: seq<SessionId>, i: nat, sessions: map<SessionId, Session>, staging: map<SessionId, Content>,
                     reclaimed: nat)
    requires i < |expired| && Swept(expired, i, sessions, staging, reclaimed)
    ensures Swept(expired, i + 1, sessions - {expired[i]}, staging - {expired[i]},
                  if expired[i] in sessions then reclaimed + 1 else reclaimed)
  {
  }

  lemma AllAreSwept(expired: seq<SessionId>, sessions: map<SessionId, Session>, staging: map<SessionId, Content>,
                    reclaimed: nat)
    requires Swept(expired, |expired|, sessions, staging, reclaimed)
    ensures forall id <- expired :: id !in sessions && id !in staging
    ensures reclaimed <= |expired| && (AllDistinct(expired) ==> reclaimed == |expired|)
  {
  }

  lemma NothingToSweep(expired: seq<SessionId>)
    ensures SweepProgram(expired[|expired|..]) == []
  {
  }

  lemma SweepGoesOn(expired: seq<SessionId>, i: nat)
    requires i < |expired|
    ensures SweepProgram(expired[i..])
         == [DiscardStaging(expired[i])] + ([DeleteSession(expired[i])] + SweepProgram(expired[i + 1..]))
  {
    assert expired[i..][1..] == expired[i + 1..];
  }

  lemma ValidManifestsHaveUniquePaths(files: seq<ManifestEntry>, entrypoint: string)
    requires IsValidManifest(files, entrypoint)
    ensures UniquePaths(files)
  {
    hide UniquePaths, IsValidEntry;
  }

  lemma StoredSizesKeepPaths(s: State, files: seq<ManifestEntry>)
    requires AllRecorded(s, files) && UniquePaths(files)
    ensures UniquePaths(WithStoredSizes(s, files))
  {
    var sized := WithStoredSizes(s, files);
    forall i, j | 0 <= i < j < |sized|
      ensures PathOf(sized[i]) != PathOf(sized[j])
    {
      assert PathOf(files[i]) != PathOf(files[j]);
    }
  }

  lemma StillRecorded(s: State, files: seq<ManifestEntry>)
    requires AllRecorded(s, files)
    ensures var rows := FilesOf(WithStoredSizes(s, files));
            forall k :: 0 <= k < |rows| ==> rows[k].blobSha256 in s.blobs
  {
  }

  lemma DistinctCount<T>(items: seq<T>)
    requires forall i, j :: 0 <= i < j < |items| ==> items[i] != items[j]
    ensures |set x | x in items| == |items|
  {
    if items != [] {
      var shorter, last := items[..|items| - 1], items[|items| - 1];
      DistinctCount(shorter);
      assert (set x | x in items) == (set x | x in shorter) + {last};
    }
  }

  /** As many rows as distinct digests: every file is recorded. */
  lemma FoundAllIffRecorded(s: State, files: seq<ManifestEntry>, distinct: seq<Digest>, sizes: map<Digest, nat>)
    requires forall h :: h in distinct <==> exists k :: 0 <= k < |files| && files[k].blobSha256 == h
    requires forall i, j :: 0 <= i < j < |distinct| ==> distinct[i] != distinct[j]
    requires sizes.Keys == set h | h in distinct && h in s.blobs
    requires forall h <- sizes :: h in s.blobs && sizes[h] == s.blobs[h].sizeBytes
    ensures |sizes| == |distinct| <==> AllRecorded(s, files)
    ensures AllRecorded(s, files) ==>
              forall k :: 0 <= k < |files| ==>
                files[k].blobSha256 in sizes && sizes[files[k].blobSha256] == s.blobs[files[k].blobSha256].sizeBytes
  {
    DistinctCount(distinct);
    var all := set h | h in distinct;
    assert sizes.Keys <= all;
    assert |sizes| == |sizes.Keys|;
    if |sizes| == |distinct| {
      EqualCountsEqualSets(sizes.Keys, all);
      forall k | 0 <= k < |files|
        ensures files[k].blobSha256 in s.blobs
      {
        assert files[k].blobSha256 in distinct;
        assert files[k].blobSha256 in all;
      }
    }
    if AllRecorded(s, files) {
      forall h <- all
        ensures h in sizes.Keys
      {
        var k :| 0 <= k < |files| && files[k].blobSha256 == h;
      }
      assert sizes.Keys == all;
    }
  }
}
