/**
 Uploading, storing, collecting and finalizing as one state machine
 (`services/UploadService.cpp`, `services/RetentionService.cpp`, `storage/BlobStore.cpp` and the
 SQL of `PgUploadRepositories.cpp`, `PgRepositories.cpp` and `PgCatalogRepositories.cpp`).

 A request is the list of repository and storage calls it still has to make. `Execute` is one such
 call, atomic; it answers with the new state and with the calls the service makes because of the
 outcome. Requests interleave freely, and a crash makes one vanish with its remaining calls.

 The reads a request makes before its first write (who owns the session, what the quota looks like,
 how many sessions are open) only ever refuse; those that touch no part of the state proved about
 here are left out, so the machine has more runs than the service.
 */
module Protocol {
  import opened Common
  import opened Text
  import opened Manifest
  import opened StagingFile

  type Digest = string
  type UserId = string
  type SessionId = string
  type BuildId = string
  type RequestId = nat

  const SWEEP_BATCH: nat := 100
  const MAX_LAUNCH_ARGS_LENGTH: nat := 1000

  /** SHA-256 is any function from contents to digests; where it matters, it is assumed injective. */
  datatype Settings = Settings(
    sha256: Content -> Digest,
    graceSeconds: nat,
    maxBlobBytes: nat,
    maxChunkBytes: nat,
    maxOpenSessions: nat,
    sessionSeconds: nat)

  ghost predicate Injective(sha256: Content -> Digest) {
    forall a, b :: sha256(a) == sha256(b) ==> a == b
  }

  datatype Account = Account(quotaBytes: int, usedBytes: int)

  datatype SessionStatus = Pending | Completed | Aborted

  datatype Session = Session(
    id: SessionId,
    buildId: BuildId,
    userId: UserId,
    blobSha256: Digest,
    declaredSizeBytes: nat,
    receivedBytes: nat,
    status: SessionStatus,
    expiresAt: int)
  {
    predicate Complete() {
      receivedBytes >= declaredSizeBytes
    }
  }

  datatype BlobRow = BlobRow(sizeBytes: nat, uploadedBy: UserId, createdAt: int)

  datatype BuildStatus = Uploading | Ready | Failed

  datatype BuildFile = BuildFile(relativePath: string, blobSha256: Digest, isExecutable: bool)

  datatype BuildRow = BuildRow(
    status: BuildStatus,
    files: seq<BuildFile>,
    manifestSha256: Digest,
    entrypoint: string,
    launchArgs: string)

  /** A row of `findUnreferenced`, as the collector remembers it. */
  datatype CollectableBlob = CollectableBlob(sha256: Digest, sizeBytes: nat, uploadedBy: UserId)

  datatype Action =
    | Reserve(sessionId: SessionId, offset: int, data: Content)
    | Write(session: Session, at: int, bytes: Content)
    | CheckRow(session: Session)
    | Charge(session: Session)
    | Commit(session: Session)
    | Record(session: Session)
    | Release(userId: UserId, amount: nat)
    | MarkCompleted(sessionId: SessionId)
    | MarkAborted(sessionId: SessionId)
    | DiscardStaging(sessionId: SessionId)
    | DeleteSession(sessionId: SessionId)
    | CollectRow(blob: CollectableBlob, listedAt: int)
    | DiscardBlob(sha256: Digest)
    | ReadSizes(buildId: BuildId, entries: seq<ManifestEntry>, entrypoint: string, launchArgs: string)
    | Finalize(buildId: BuildId, entries: seq<ManifestEntry>, entrypoint: string, launchArgs: string,
               manifestSha256: Digest)

  /** Whether a request is an upload chunk of one session, or anything else. */
  datatype Origin = ChunkOf(sessionId: SessionId) | Housekeeping

  datatype Request = Request(origin: Origin, program: seq<Action>)

  /** A range a session was told to write. */
  datatype Chunk = Chunk(offset: int, data: Content)

  datatype State = State(
    now: int,
    accounts: map<UserId, Account>,
    sessions: map<SessionId, Session>,
    blobs: map<Digest, BlobRow>,
    builds: map<BuildId, BuildRow>,
    staging: map<SessionId, Content>,
    stored: map<Digest, Content>,
    requests: map<RequestId, Request>,
    // History, read by no step: the ranges every session ever accepted, and the charges that
    // crashed requests took with them.
    accepted: map<SessionId, seq<Chunk>>,
    leaked: map<UserId, nat>)

  datatype Outcome = Outcome(state: State, next: seq<Action>)

  // ---------------------------------------------------------------------------
  // Upload sessions and staging files
  // ---------------------------------------------------------------------------

  /** `reserveBytes`: the offset is handed out by one conditional update. */
  function ExecuteReserve(s: State, id: SessionId, offset: int, data: Content): (o: Outcome)
    ensures o.state == s.(sessions := o.state.sessions, accepted := o.state.accepted)
    ensures o.state == s
         || (&& id in s.sessions && id in o.state.sessions && id in o.state.accepted
             && o.state.sessions == s.sessions[id := o.state.sessions[id]]
             && o.state.accepted == s.accepted[id := o.state.accepted[id]])
    ensures o.next == [] || (id in o.state.sessions && o.next == [Write(o.state.sessions[id], offset, data)])
  {
    if id in s.sessions && var session := s.sessions[id];
       && session.status == Pending
       && session.expiresAt > s.now
       && session.receivedBytes == offset
       && session.receivedBytes + |data| <= session.declaredSizeBytes
    then
      var session := s.sessions[id].(receivedBytes := s.sessions[id].receivedBytes + |data|);
      var chunks := if id in s.accepted then s.accepted[id] else [];
      Outcome(
        s.(sessions := s.sessions[id := session], accepted := s.accepted[id := chunks + [Chunk(offset, data)]]),
        [Write(session, offset, data)])
    else Outcome(s, [])
  }

  function StagingOf(s: State, id: SessionId): Option<Content> {
    if id in s.staging then Some(s.staging[id]) else None
  }

  /** What `abortUpload`, and a chunk whose write failed, still have to do. */
  function AbortProgram(id: SessionId): seq<Action> {
    [MarkAborted(id), DiscardStaging(id)]
  }

  function ExecuteWrite(s: State, session: Session, offset: int, data: Content, io: Io): (o: Outcome)
    ensures o.state == s.(staging := o.state.staging)
    ensures o.state.staging - {session.id} == s.staging - {session.id}
    ensures o.next == [] || o.next == [CheckRow(session)] || o.next == AbortProgram(session.id)
  {
    var written := WriteAt(StagingOf(s, session.id), offset, data);
    match io
    case Works =>
      if written.None? then Outcome(s, AbortProgram(session.id))
      else
        Outcome(s.(staging := s.staging[session.id := written.value]),
                if session.Complete() then [CheckRow(session)] else [])
    case Fails(debris) =>
      Outcome(if debris.None? then s else s.(staging := s.staging[session.id := debris.value]),
              AbortProgram(session.id))
  }

  function WithStatus(s: State, id: SessionId, status: SessionStatus): (t: State)
    ensures t == s.(sessions := t.sessions)
  {
    if id in s.sessions && s.sessions[id].status == Pending
    then s.(sessions := s.sessions[id := s.sessions[id].(status := status)])
    else s
  }

  function WithoutStaging(s: State, id: SessionId): (t: State)
    ensures t == s.(staging := t.staging)
  {
    s.(staging := s.staging - {id})
  }

  // ---------------------------------------------------------------------------
  // Completing an upload
  // ---------------------------------------------------------------------------

  function ExecuteCheckRow(s: State, session: Session): (o: Outcome)
    ensures o.state == s
    ensures o.next == [Charge(session)] || o.next == [DiscardStaging(session.id), MarkCompleted(session.id)]
  {
    if session.blobSha256 in s.blobs
    then Outcome(s, [DiscardStaging(session.id), MarkCompleted(session.id)])
    else Outcome(s, [Charge(session)])
  }

  /** `chargeUpload`: the quota test and the increment are one conditional update. */
  function ExecuteCharge(s: State, session: Session): (o: Outcome)
    ensures o.state == s.(accounts := o.state.accounts) && o.state.accounts.Keys == s.accounts.Keys
    ensures o.next == [Commit(session)] || o.next == [DiscardStaging(session.id), MarkAborted(session.id)]
  {
    var user, bytes := session.userId, session.declaredSizeBytes;
    if user in s.accounts && s.accounts[user].usedBytes + bytes <= s.accounts[user].quotaBytes
    then
      var account := s.accounts[user].(usedBytes := s.accounts[user].usedBytes + bytes);
      Outcome(s.(accounts := s.accounts[user := account]), [Commit(session)])
    else Outcome(s, [DiscardStaging(session.id), MarkAborted(session.id)])
  }

  /** `BlobStore::commit`: hash, compare, and move to the content address unless it is taken. */
  function ExecuteCommit(p: Settings, s: State, session: Session, io: Io): (o: Outcome)
    ensures o.state == s.(staging := o.state.staging, stored := o.state.stored)
    ensures o.state.staging == s.staging || o.state.staging == s.staging - {session.id}
    ensures o.next == [Record(session)] || o.next == [Release(session.userId, session.declaredSizeBytes), MarkAborted(session.id)]
  {
    var id, sha256 := session.id, session.blobSha256;
    var passes := IsSha256Hex(sha256) && id in s.staging && io.Works? && p.sha256(s.staging[id]) == sha256;
    var staging := if IsSha256Hex(sha256) then s.staging - {id} else s.staging;
    var stored := if passes && sha256 !in s.stored then s.stored[sha256 := s.staging[id]] else s.stored;
    Outcome(s.(staging := staging, stored := stored),
            if passes then [Record(session)]
            else [Release(session.userId, session.declaredSizeBytes), MarkAborted(id)])
  }

  /** `record`: inserts the row, or reports that somebody else did. */
  function ExecuteRecord(s: State, session: Session): (o: Outcome)
    ensures o.state == s.(blobs := o.state.blobs)
    ensures o.next == [MarkCompleted(session.id)]
         || o.next == [Release(session.userId, session.declaredSizeBytes), MarkCompleted(session.id)]
  {
    if session.blobSha256 in s.blobs
    then Outcome(s, [Release(session.userId, session.declaredSizeBytes), MarkCompleted(session.id)])
    else
      var row := BlobRow(session.declaredSizeBytes, session.userId, s.now);
      Outcome(s.(blobs := s.blobs[session.blobSha256 := row]), [MarkCompleted(session.id)])
  }

  /** `releaseUpload`, clamped at zero. */
  function Released(s: State, user: UserId, bytes: nat): (t: State)
    ensures t == s.(accounts := t.accounts) && t.accounts.Keys == s.accounts.Keys
  {
    if user !in s.accounts then s
    else
      var used := s.accounts[user].usedBytes - bytes;
      s.(accounts := s.accounts[user := s.accounts[user].(usedBytes := if used < 0 then 0 else used)])
  }

  // ---------------------------------------------------------------------------
  // Collecting
  // ---------------------------------------------------------------------------

  predicate Referenced(s: State, sha256: Digest) {
    exists b <- s.builds :: exists k :: 0 <= k < |s.builds[b].files| && s.builds[b].files[k].blobSha256 == sha256
  }

  predicate Awaited(s: State, sha256: Digest) {
    exists id <- s.sessions :: s.sessions[id].blobSha256 == sha256 && s.sessions[id].status == Pending
  }

  /** The condition of `findUnreferenced`, repeated inside `deleteIfUnreferenced`. */
  predicate Collectable(p: Settings, s: State, sha256: Digest) {
    && sha256 in s.blobs
    && s.blobs[sha256].createdAt + p.graceSeconds < s.now
    && !Referenced(s, sha256)
    && !Awaited(s, sha256)
  }

  function ExecuteCollectRow(p: Settings, s: State, blob: CollectableBlob): (o: Outcome)
    ensures o.state == s.(blobs := o.state.blobs)
    ensures o.next == [] || o.next == [DiscardBlob(blob.sha256)]
         || o.next == [DiscardBlob(blob.sha256), Release(blob.uploadedBy, blob.sizeBytes)]
  {
    if !Collectable(p, s, blob.sha256) then Outcome(s, [])
    else
      Outcome(s.(blobs := s.blobs - {blob.sha256}),
              [DiscardBlob(blob.sha256)]
              + if blob.uploadedBy == "" then [] else [Release(blob.uploadedBy, blob.sizeBytes)])
  }

  // ---------------------------------------------------------------------------
  // Finalizing
  // ---------------------------------------------------------------------------

  predicate AllRecorded(s: State, entries: seq<ManifestEntry>) {
    forall k :: 0 <= k < |entries| ==> entries[k].blobSha256 in s.blobs
  }

  /** The submitted entries with the sizes the store knows. */
  function WithStoredSizes(s: State, entries: seq<ManifestEntry>): (sized: seq<ManifestEntry>)
    requires AllRecorded(s, entries)
    ensures |sized| == |entries|
    ensures forall k :: 0 <= k < |entries| ==>
              sized[k] == entries[k].(sizeBytes := s.blobs[entries[k].blobSha256].sizeBytes)
  {
    seq(|entries|, k requires 0 <= k < |entries| && AllRecorded(s, entries) =>
      entries[k].(sizeBytes := s.blobs[entries[k].blobSha256].sizeBytes))
  }

  function ExecuteReadSizes(p: Settings, s: State, build: BuildId, entries: seq<ManifestEntry>,
                            entrypoint: string, launchArgs: string): (o: Outcome)
    ensures o.state == s
    ensures o.next == [] || (|o.next| == 1 && o.next[0].Finalize?)
  {
    if !AllRecorded(s, entries) then Outcome(s, [])
    else
      var sized := WithStoredSizes(s, entries);
      var manifestSha256 := p.sha256(CanonicalText(sized, entrypoint, launchArgs));
      Outcome(s, [Finalize(build, sized, entrypoint, launchArgs, manifestSha256)])
  }

  function FilesOf(entries: seq<ManifestEntry>): (files: seq<BuildFile>)
    ensures |files| == |entries|
    ensures forall k :: 0 <= k < |entries| ==>
              files[k] == BuildFile(entries[k].relativePath, entries[k].blobSha256, entries[k].isExecutable)
  {
    seq(|entries|, k requires 0 <= k < |entries| =>
      BuildFile(entries[k].relativePath, entries[k].blobSha256, entries[k].isExecutable))
  }

  /**
   `PgBuildRepository::finalize`: one statement, gated on the status; the foreign key from
   `build_files` to `blobs` undoes all of it when a blob is gone.
   */
  function ExecuteFinalize(s: State, build: BuildId, entries: seq<ManifestEntry>, entrypoint: string,
                           launchArgs: string, manifestSha256: Digest): (o: Outcome)
    ensures o.state == s.(builds := o.state.builds) && o.next == []
  {
    if build in s.builds && s.builds[build].status == Uploading && AllRecorded(s, entries)
    then
      var row := BuildRow(Ready, FilesOf(entries), manifestSha256, entrypoint, launchArgs);
      Outcome(s.(builds := s.builds[build := row]), [])
    else Outcome(s, [])
  }

  // ---------------------------------------------------------------------------
  // Steps and runs
  // ---------------------------------------------------------------------------

  function Execute(p: Settings, s: State, action: Action, io: Io): Outcome {
    match action
    case Reserve(id, offset, data) => ExecuteReserve(s, id, offset, data)
    case Write(session, offset, data) => ExecuteWrite(s, session, offset, data, io)
    case CheckRow(session) => ExecuteCheckRow(s, session)
    case Charge(session) => ExecuteCharge(s, session)
    case Commit(session) => ExecuteCommit(p, s, session, io)
    case Record(session) => ExecuteRecord(s, session)
    case Release(user, bytes) => Outcome(Released(s, user, bytes), [])
    case MarkCompleted(id) => Outcome(WithStatus(s, id, Completed), [])
    case MarkAborted(id) => Outcome(WithStatus(s, id, Aborted), [])
    case DiscardStaging(id) => Outcome(WithoutStaging(s, id), [])
    case DeleteSession(id) => Outcome(s.(sessions := s.sessions - {id}), [])
    case CollectRow(blob, _) => ExecuteCollectRow(p, s, blob)
    case DiscardBlob(sha256) => Outcome(s.(stored := s.stored - {sha256}), [])
    case ReadSizes(build, entries, entrypoint, launchArgs) =>
      ExecuteReadSizes(p, s, build, entries, entrypoint, launchArgs)
    case Finalize(build, entries, entrypoint, launchArgs, manifestSha256) =>
      ExecuteFinalize(s, build, entries, entrypoint, launchArgs, manifestSha256)
  }

  datatype Event =
    | Tick(seconds: nat)
    | CreateBuild(buildId: BuildId)
    | MarkFailed(buildId: BuildId)
    | RemoveBuild(buildId: BuildId)
    | SetQuota(userId: UserId, quotaBytes: nat)
    | BeginUpload(sessionId: SessionId, buildId: BuildId, userId: UserId, sha256: Digest, sizeBytes: nat, ttl: nat)
    | StartChunk(request: RequestId, userId: UserId, sessionId: SessionId, offset: int, data: Content)
    | StartAbort(request: RequestId, userId: UserId, sessionId: SessionId)
    | StartSweep(request: RequestId, expired: seq<SessionId>)
    | StartCollection(request: RequestId, listed: seq<Digest>)
    | StartFinalize(request: RequestId, buildId: BuildId, entries: seq<ManifestEntry>, entrypoint: string,
                    launchArgs: string)
    | Step(request: RequestId, io: Io)
    | Crash(request: RequestId)

  /** `sweepExpiredSessions`: the staging file of each one first, then the row. */
  function SweepProgram(expired: seq<SessionId>): seq<Action> {
    if expired == [] then [] else [DiscardStaging(expired[0]), DeleteSession(expired[0])] + SweepProgram(expired[1..])
  }

  /** The loop of `collectUnreferencedBlobs` over the rows the listing returned. */
  function CollectionProgram(s: State, listed: seq<Digest>): seq<Action>
    requires forall k :: 0 <= k < |listed| ==> listed[k] in s.blobs
  {
    if listed == [] then []
    else
      var row := s.blobs[listed[0]];
      [CollectRow(CollectableBlob(listed[0], row.sizeBytes, row.uploadedBy), s.now)] + CollectionProgram(s, listed[1..])
  }

  /** The checks of `uploadChunk` on the session it read, before anything is reserved. */
  predicate ChunkIsPlausible(p: Settings, s: State, user: UserId, id: SessionId, offset: int, data: Content) {
    && id in s.sessions
    && var session := s.sessions[id];
    && session.userId == user
    && session.status == Pending
    && session.expiresAt > s.now
    && |data| <= p.maxChunkBytes
    && offset == session.receivedBytes
    && offset + |data| <= session.declaredSizeBytes
  }

  predicate IsExpired(s: State, id: SessionId) {
    id in s.sessions && s.sessions[id].status == Pending && s.sessions[id].expiresAt <= s.now
  }

  predicate HasOpenSession(s: State, build: BuildId, sha256: Digest) {
    exists id <- s.sessions ::
      s.sessions[id].buildId == build && s.sessions[id].blobSha256 == sha256 && s.sessions[id].status == Pending
  }

  /** `create`, with its at-most-one-open-session index. A session id is a fresh uuid. */
  function BegunUpload(p: Settings, s: State, id: SessionId, build: BuildId, user: UserId, sha256: Digest,
                       size: nat, ttl: nat): (t: State)
    ensures t == s.(sessions := t.sessions, accepted := t.accepted)
  {
    if && id !in s.accepted && id !in s.sessions && id !in s.staging
       && build in s.builds && s.builds[build].status == Uploading && user in s.accounts
       && IsSha256Hex(sha256) && size <= p.maxBlobBytes
       && !HasOpenSession(s, build, sha256)
    then
      s.(sessions := s.sessions[id := Session(id, build, user, sha256, size, 0, Pending, s.now + ttl)],
         accepted := s.accepted[id := []])
    else s
  }

  /** `StartFinalize` is accepted for a writable build and a valid manifest. */
  ghost predicate MayFinalize(s: State, build: BuildId, entries: seq<ManifestEntry>, entrypoint: string,
                              launchArgs: string) {
    && build in s.builds && s.builds[build].status == Uploading
    && |launchArgs| <= MAX_LAUNCH_ARGS_LENGTH
    && IsValidManifest(entries, Trim(entrypoint))
  }

  function WithBuild(s: State, build: BuildId): (t: State)
    ensures t == s.(builds := t.builds)
  {
    if build in s.builds then s else s.(builds := s.builds[build := BuildRow(Uploading, [], "", "", "")])
  }

  /** `markFailed`: never a ready build. */
  function WithFailedBuild(s: State, build: BuildId): (t: State)
    ensures t == s.(builds := t.builds)
  {
    if build in s.builds && s.builds[build].status != Ready
    then s.(builds := s.builds[build := s.builds[build].(status := Failed)])
    else s
  }

  function WithQuota(s: State, user: UserId, quota: nat): (t: State)
    ensures t == s.(accounts := t.accounts)
    ensures t.accounts.Keys == s.accounts.Keys
    ensures forall other <- s.accounts :: t.accounts[other].usedBytes == s.accounts[other].usedBytes
  {
    if user in s.accounts
    then s.(accounts := s.accounts[user := s.accounts[user].(quotaBytes := quota)])
    else s
  }

  /** Deleting a build takes its `build_files` and its upload sessions along. */
  function WithoutBuild(s: State, build: BuildId): (t: State)
    ensures t == s.(builds := t.builds, sessions := t.sessions)
  {
    s.(builds := s.builds - {build},
       sessions := map id | id in s.sessions && s.sessions[id].buildId != build :: s.sessions[id])
  }

  /** One step of one request: its first call is made and replaced by what follows from the outcome. */
  function Stepped(p: Settings, s: State, r: RequestId, io: Io): (t: State)
    requires r in s.requests && s.requests[r].program != []
    ensures var outcome := Execute(p, s, s.requests[r].program[0], io);
            t == outcome.state.(requests := t.requests)
  {
    var request := s.requests[r];
    var outcome := Execute(p, s, request.program[0], io);
    outcome.state.(requests := s.requests[r := request.(program := outcome.next + request.program[1..])])
  }

  /** What a request still owes or holds for a user: a charge not yet backed by a row, or a refund. */
  function Held(action: Action, user: UserId): nat {
    match action
    case Commit(session) => if session.userId == user then session.declaredSizeBytes else 0
    case Record(session) => if session.userId == user then session.declaredSizeBytes else 0
    case Release(owner, bytes) => if owner == user then bytes else 0
    case _ => 0
  }

  function HeldBy(program: seq<Action>, user: UserId): nat {
    if program == [] then 0 else Held(program[0], user) + HeldBy(program[1..], user)
  }

  function LeakedBytes(s: State, user: UserId): nat {
    if user in s.leaked then s.leaked[user] else 0
  }

  function Crashed(s: State, r: RequestId): (t: State)
    requires r in s.requests
    ensures t == s.(requests := s.requests - {r}, leaked := t.leaked)
  {
    s.(requests := s.requests - {r},
       leaked := map user <- s.accounts :: LeakedBytes(s, user) + HeldBy(s.requests[r].program, user))
  }

  predicate StartsRequest(event: Event) {
    event.StartChunk? || event.StartAbort? || event.StartSweep? || event.StartCollection? || event.StartFinalize?
  }

  /** Who a new request belongs to and the calls it sets out with, unless it is refused at once. */
  ghost function ProgramOf(p: Settings, s: State, event: Event): Option<Request>
    requires StartsRequest(event)
  {
    match event
    case StartChunk(_, user, id, offset, data) =>
      if ChunkIsPlausible(p, s, user, id, offset, data)
      then Some(Request(ChunkOf(id), [Reserve(id, offset, data)]))
      else None
    case StartAbort(_, user, id) =>
      if id in s.sessions && s.sessions[id].userId == user
      then Some(Request(Housekeeping, AbortProgram(id)))
      else None
    case StartSweep(_, expired) =>
      if |expired| <= SWEEP_BATCH && forall k :: 0 <= k < |expired| ==> IsExpired(s, expired[k])
      then Some(Request(Housekeeping, SweepProgram(expired)))
      else None
    case StartCollection(_, listed) =>
      if forall k :: 0 <= k < |listed| ==> Collectable(p, s, listed[k])
      then Some(Request(Housekeeping, CollectionProgram(s, listed)))
      else None
    case StartFinalize(_, build, entries, entrypoint, launchArgs) =>
      if MayFinalize(s, build, entries, entrypoint, launchArgs)
      then Some(Request(Housekeeping, [ReadSizes(build, entries, Trim(entrypoint), launchArgs)]))
      else None
  }

  ghost function Started(s: State, r: RequestId, request: Option<Request>): (t: State)
    ensures t == s.(requests := t.requests)
    ensures t.requests == s.requests
         || (r !in s.requests && request.Some? && t.requests == s.requests[r := request.value])
  {
    if r in s.requests || request.None? then s else s.(requests := s.requests[r := request.value])
  }

  ghost function Apply(p: Settings, s: State, event: Event): State {
    match event
    case Tick(seconds) => s.(now := s.now + seconds)
    case CreateBuild(b) => WithBuild(s, b)
    case MarkFailed(b) => WithFailedBuild(s, b)
    case RemoveBuild(b) => WithoutBuild(s, b)
    case SetQuota(user, quota) => WithQuota(s, user, quota)
    case BeginUpload(id, build, user, sha256, size, ttl) => BegunUpload(p, s, id, build, user, sha256, size, ttl)
    case Step(r, io) =>
      if r in s.requests && s.requests[r].program != [] then Stepped(p, s, r, io) else s
    case Crash(r) => if r in s.requests then Crashed(s, r) else s
    case _ => Started(s, event.request, ProgramOf(p, s, event))
  }

  ghost function Run(p: Settings, s: State, events: seq<Event>): State
    decreases |events|
  {
    if events == [] then s else Run(p, Apply(p, s, events[0]), events[1..])
  }

  /** Accounts that have stored nothing, and nothing else. The empty id stands for "nobody". */
  ghost predicate Initial(s: State) {
    && "" !in s.accounts
    && (forall user <- s.accounts :: s.accounts[user].usedBytes == 0 && s.accounts[user].quotaBytes >= 0)
    && s.sessions == map[] && s.blobs == map[] && s.builds == map[]
    && s.staging == map[] && s.stored == map[] && s.requests == map[]
    && s.accepted == map[] && s.leaked == map[]
  }

  lemma {:induction false} RunsCompose(p: Settings, s: State, first: seq<Event>, second: seq<Event>)
    ensures Run(p, s, first + second) == Run(p, Run(p, s, first), second)
    decreases |first|
  {
    if first == [] {
      assert first + second == second;
    } else {
      assert (first + second)[1..] == first[1..] + second;
      RunsCompose(p, Apply(p, s, first[0]), first[1..], second);
    }
  }
}
