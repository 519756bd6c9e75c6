/** Pieces of runs of the machine, from which the runs that break a promise are put together. */
module Scenarios {
  import opened Common
  import opened Manifest
  import opened StagingFile
  import opened BlobStores
  import opened Protocol
  import opened Backends

  lemma NothingYet(p: Settings, s: State)
    ensures Run(p, s, []) == s
  {
  }

  lemma JustOneEvent(p: Settings, s: State, event: Event)
    ensures Run(p, s, [event]) == Apply(p, s, event)
  {
    hide Apply;
    NothingYet(p, s);
    OneMoreEvent(p, s, [], s, event);
    assert [] + [event] == [event];
  }

  lemma JustOneStep(p: Settings, s: State, r: RequestId)
    requires r in s.requests && s.requests[r].program != []
    ensures Run(p, s, [Step(r, Works)]) == Stepped(p, s, r, Works)
  {
    hide Run, Stepped;
    NothingYet(p, s);
    OneMoreStep(p, s, [], s, r, Works);
    assert [] + [Step(r, Works)] == [Step(r, Works)];
  }

  /** One run after another. */
  lemma Then(p: Settings, origin: State, trace: seq<Event>, s: State, more: seq<Event>, t: State)
    requires Run(p, origin, trace) == s && Run(p, s, more) == t
    ensures Run(p, origin, trace + more) == t
  {
    hide Run;
    RunsCompose(p, origin, trace, more);
  }

  /** This and nothing else is what the request still has to do. */
  ghost predicate Does(s: State, r: RequestId, action: Action) {
    Calls(s.requests, r, action) && |s.requests[r].program| == 1
  }

  ghost predicate OthersAsBefore(s: State, t: State, r: RequestId) {
    r in t.requests && t.requests - {r} == s.requests - {r}
  }

  // ---------------------------------------------------------------------------
  // Builds, time, sessions
  // ---------------------------------------------------------------------------

  lemma TimePasses(p: Settings, s: State, seconds: nat)
    ensures Run(p, s, [Tick(seconds)]) == s.(now := s.now + seconds)
  {
    hide Run, Started, ProgramOf, BegunUpload, WithBuild, WithFailedBuild, WithoutBuild, WithQuota, Stepped, Crashed;
    JustOneEvent(p, s, Tick(seconds));
  }

  const BUILD: BuildId := "b"

  /** The build everything is uploaded for, empty as long as it is not finalized. */
  const EMPTY_BUILD := BuildRow(Uploading, [], "", "", "")

  ghost predicate OnlyAnEmptyBuild(s: State) {
    s.builds == map[BUILD := EMPTY_BUILD]
  }

  lemma BuildIsCreated(p: Settings, s: State)
    requires s.builds == map[]
    ensures Run(p, s, [CreateBuild(BUILD)]) == s.(builds := map[BUILD := EMPTY_BUILD])
  {
    hide Run, Started, ProgramOf, BegunUpload, WithFailedBuild, WithoutBuild, WithQuota, Stepped, Crashed;
    JustOneEvent(p, s, CreateBuild(BUILD));
  }

  /** A session that waits for `size` bytes of this digest, and an account that can afford them. */
  ghost predicate Opened(p: Settings, s: State, id: SessionId, user: UserId, sha256: Digest, size: nat) {
    && id in s.sessions && id !in s.staging
    && var session := s.sessions[id];
    && session.id == id && session.userId == user && session.status == Pending && session.expiresAt > s.now
    && session.receivedBytes == 0 && session.declaredSizeBytes == size && session.blobSha256 == sha256
    && IsSha256Hex(sha256) && MayCharge(s.accounts, user, size)
  }

  ghost predicate NothingPending(s: State) {
    forall id <- s.sessions :: s.sessions[id].status != Pending
  }

  lemma SessionOpens(p: Settings, s: State, id: SessionId, user: UserId, sha256: Digest, size: nat) returns (t: State)
    requires id !in s.accepted && id !in s.sessions && id !in s.staging
    requires OnlyAnEmptyBuild(s) && NothingPending(s)
    requires IsSha256Hex(sha256) && size <= p.maxBlobBytes && MayCharge(s.accounts, user, size)
    ensures Run(p, s, [BeginUpload(id, BUILD, user, sha256, size, 1)]) == t
    ensures Opened(p, t, id, user, sha256, size)
    ensures t == s.(sessions := s.sessions[id := Session(id, BUILD, user, sha256, size, 0, Pending, s.now + 1)],
                    accepted := s.accepted[id := []])
  {
    hide Run, Apply, IsSha256Hex;
    assert MayOpen(p, s, id, BUILD, user, sha256, size);
    OpeningIsApplied(p, s, id, BUILD, user, sha256, size, 1);
    JustOneEvent(p, s, BeginUpload(id, BUILD, user, sha256, size, 1));
    t := Apply(p, s, BeginUpload(id, BUILD, user, sha256, size, 1));
  }

  // ---------------------------------------------------------------------------
  // Chunks
  // ---------------------------------------------------------------------------

  function AcceptChunk(s: State, id: SessionId, offset: int, data: Content): map<SessionId, seq<Chunk>> {
    s.accepted[id := (if id in s.accepted then s.accepted[id] else []) + [Chunk(offset, data)]]
  }

  lemma ChunkReserved(p: Settings, s: State, r: RequestId, id: SessionId, offset: nat, data: Content)
    returns (t: State, session: Session)
    requires r !in s.requests && id in s.sessions && ChunkIsPlausible(p, s, s.sessions[id].userId, id, offset, data)
    ensures Run(p, s, [StartChunk(r, s.sessions[id].userId, id, offset, data), Step(r, Works)]) == t
    ensures session == s.sessions[id].(receivedBytes := offset + |data|)
    ensures t == s.(sessions := s.sessions[id := session], accepted := AcceptChunk(s, id, offset, data),
                    requests := t.requests)
    ensures Does(t, r, Write(session, offset, data)) && OthersAsBefore(s, t, r)
  {
    hide Run, Stepped, Apply, ProgramOf;
    var event := StartChunk(r, s.sessions[id].userId, id, offset, data);
    ChunkIsAccepted(p, s, event);
    StartIsApplied(p, s, event);
    var s1 := Apply(p, s, event);
    JustOneEvent(p, s, event);
    ReserveStep(p, s1, r, id, offset, data);
    t := Stepped(p, s1, r, Works);
    session := s.sessions[id].(receivedBytes := offset + |data|);
    JustOneStep(p, s1, r);
    Then(p, s, [event], s1, [Step(r, Works)], t);
    assert [event] + [Step(r, Works)] == [event, Step(r, Works)];
    MovedProgram(s1.requests, r, [Write(session, offset, data)]);
  }

  lemma ChunkIsAccepted(p: Settings, s: State, event: Event)
    requires event.StartChunk? && ChunkIsPlausible(p, s, event.userId, event.sessionId, event.offset, event.data)
    ensures ProgramOf(p, s, event)
         == Some(Request(ChunkOf(event.sessionId), [Reserve(event.sessionId, event.offset, event.data)]))
  {
    hide ChunkIsPlausible;
  }

  lemma ChunkWritten(p: Settings, s: State, r: RequestId, session: Session, offset: nat, data: Content, file: Content)
    returns (t: State)
    requires Does(s, r, Write(session, offset, data))
    requires StagingFile.WriteAt(FileAt(s.staging, session.id), offset, data) == Some(file)
    ensures Run(p, s, [Step(r, Works)]) == t
    ensures t == s.(staging := s.staging[session.id := file], requests := t.requests)
    ensures OthersAsBefore(s, t, r)
    ensures session.Complete() ==> Does(t, r, CheckRow(session))
    ensures !session.Complete() ==> t.requests[r].program == []
  {
    hide Run, Stepped, StagingFile.WriteAt;
    WriteStep(p, s, r, session, offset, data, Works);
    t := Stepped(p, s, r, Works);
    JustOneStep(p, s, r);
    MovedProgram(s.requests, r, AfterWrite(session, true));
  }

  // ---------------------------------------------------------------------------
  // Completion
  // ---------------------------------------------------------------------------

  /** Checking, charging, committing, recording and marking, for content nobody has recorded. */
  lemma ContentLands(p: Settings, s: State, r: RequestId, session: Session, content: Content)
    returns (trace: seq<Event>, t: State)
    requires Does(s, r, CheckRow(session))
    requires session.blobSha256 == p.sha256(content) && IsSha256Hex(session.blobSha256)
    requires session.blobSha256 !in s.blobs && FileAt(s.staging, session.id) == Some(content)
    requires MayCharge(s.accounts, session.userId, session.declaredSizeBytes)
    ensures Run(p, s, trace) == t
    ensures t == s.(accounts := UsageAdded(s.accounts, session.userId, session.declaredSizeBytes),
                    staging := s.staging - {session.id}, stored := t.stored,
                    blobs := s.blobs[session.blobSha256 := BlobRow(session.declaredSizeBytes, session.userId, s.now)],
                    sessions := StatusSet(s.sessions, session.id, Completed), requests := t.requests)
    ensures session.blobSha256 in t.stored && OthersAsBefore(s, t, r) && t.requests[r].program == []
  {
    hide Run, Stepped, Apply, IsSha256Hex, MayCharge, UsageAdded, StatusSet;
    var t1 := Charged(p, s, r, session);
    var t2 := Committed(p, t1, r, session, content);
    Then(p, s, [Step(r, Works), Step(r, Works)], t1, [Step(r, Works)], t2);
    t := Marked(p, t2, r, session);
    trace := [Step(r, Works), Step(r, Works)] + [Step(r, Works)] + [Step(r, Works), Step(r, Works)];
    Then(p, s, [Step(r, Works), Step(r, Works)] + [Step(r, Works)], t2, [Step(r, Works), Step(r, Works)], t);
  }

  lemma TwoSteps(p: Settings, s: State, r: RequestId, s1: State, t: State)
    requires Run(p, s, [Step(r, Works)]) == s1 && Run(p, s1, [Step(r, Works)]) == t
    ensures Run(p, s, [Step(r, Works), Step(r, Works)]) == t
  {
    hide Run;
    Then(p, s, [Step(r, Works)], s1, [Step(r, Works)], t);
    assert [Step(r, Works)] + [Step(r, Works)] == [Step(r, Works), Step(r, Works)];
  }

  lemma Charged(p: Settings, s: State, r: RequestId, session: Session) returns (t: State)
    requires Does(s, r, CheckRow(session)) && session.blobSha256 !in s.blobs
    requires MayCharge(s.accounts, session.userId, session.declaredSizeBytes)
    ensures Run(p, s, [Step(r, Works), Step(r, Works)]) == t
    ensures t == s.(accounts := UsageAdded(s.accounts, session.userId, session.declaredSizeBytes), requests := t.requests)
    ensures Does(t, r, Commit(session)) && OthersAsBefore(s, t, r)
  {
    hide Run, Stepped, MayCharge, UsageAdded;
    CheckRowStep(p, s, r, session);
    var s1 := Stepped(p, s, r, Works);
    JustOneStep(p, s, r);
    MovedProgram(s.requests, r, AfterCheck(session, false));
    assert s1.requests[r].program == [Charge(session)];
    ChargeStep(p, s1, r, session);
    t := Stepped(p, s1, r, Works);
    JustOneStep(p, s1, r);
    TwoSteps(p, s, r, s1, t);
    MovedProgram(s1.requests, r, AfterCharge(session, true));
  }

  lemma Committed(p: Settings, s: State, r: RequestId, session: Session, content: Content) returns (t: State)
    requires Does(s, r, Commit(session)) && FileAt(s.staging, session.id) == Some(content)
    requires session.blobSha256 == p.sha256(content) && IsSha256Hex(session.blobSha256)
    ensures Run(p, s, [Step(r, Works)]) == t
    ensures t == s.(staging := s.staging - {session.id}, stored := t.stored, requests := t.requests)
    ensures session.blobSha256 in t.stored
    ensures Does(t, r, Record(session)) && OthersAsBefore(s, t, r)
  {
    hide Run, Stepped, IsSha256Hex;
    CommitStep(p, s, r, session, Works);
    t := Stepped(p, s, r, Works);
    JustOneStep(p, s, r);
    MovedProgram(s.requests, r, AfterCommit(session, true));
  }

  lemma Marked(p: Settings, s: State, r: RequestId, session: Session) returns (t: State)
    requires Does(s, r, Record(session)) && session.blobSha256 !in s.blobs
    ensures Run(p, s, [Step(r, Works), Step(r, Works)]) == t
    ensures t == s.(blobs := s.blobs[session.blobSha256 := BlobRow(session.declaredSizeBytes, session.userId, s.now)],
                    sessions := StatusSet(s.sessions, session.id, Completed), requests := t.requests)
    ensures OthersAsBefore(s, t, r) && t.requests[r].program == []
  {
    hide Run, Stepped, StatusSet;
    RecordStep(p, s, r, session);
    var s1 := Stepped(p, s, r, Works);
    JustOneStep(p, s, r);
    MovedProgram(s.requests, r, AfterRecord(session, true));
    assert s1.requests[r].program == [MarkCompleted(session.id)];
    MarkStep(p, s1, r, session.id, Completed);
    t := Stepped(p, s1, r, Works);
    JustOneStep(p, s1, r);
    TwoSteps(p, s, r, s1, t);
    MovedProgram(s1.requests, r, []);
  }

  /** What an upload leaves of the rest of the state. */
  ghost predicate Landed(s: State, t: State, r: RequestId, id: SessionId, row: BlobRow, sha256: Digest) {
    && t.now == s.now && t.builds == s.builds && t.leaked == s.leaked && OthersAsBefore(s, t, r)
    && t.requests[r].program == []
    && t.blobs == s.blobs[sha256 := row] && sha256 in t.stored
    && t.accounts == UsageAdded(s.accounts, row.uploadedBy, row.sizeBytes)
    && id in t.sessions && t.sessions == s.sessions[id := t.sessions[id]] && t.sessions[id].status == Completed
    && t.staging == s.staging - {id} && t.accepted.Keys == s.accepted.Keys + {id}
  }

  /** A whole upload in one chunk, with nothing in between. */
  lemma UploadLands(p: Settings, s: State, r: RequestId, id: SessionId, user: UserId, content: Content)
    returns (trace: seq<Event>, t: State)
    requires Opened(p, s, id, user, p.sha256(content), |content|) && |content| <= p.maxChunkBytes
    requires r !in s.requests && p.sha256(content) !in s.blobs
    ensures Run(p, s, trace) == t
    ensures Landed(s, t, r, id, BlobRow(|content|, user, s.now), p.sha256(content))
  {
    hide Run, IsSha256Hex, UsageAdded;
    var s1, session := ChunkReserved(p, s, r, id, 0, content);
    assert Overwritten("", 0, content) == content;
    var s2 := ChunkWritten(p, s1, r, session, 0, content, content);
    var first := [StartChunk(r, user, id, 0, content), Step(r, Works)];
    Then(p, s, first, s1, [Step(r, Works)], s2);
    var second;
    second, t := ContentLands(p, s2, r, session, content);
    Then(p, s, first + [Step(r, Works)], s2, second, t);
    trace := first + [Step(r, Works)] + second;
    assert s.staging[id := content] - {id} == s.staging - {id};
  }

  /** A digest the account can upload, and time to do it. */
  ghost predicate Uploadable(p: Settings, s: State, user: UserId, content: Content) {
    && IsSha256Hex(p.sha256(content)) && |content| <= p.maxBlobBytes && |content| <= p.maxChunkBytes
    && MayCharge(s.accounts, user, |content|)
  }

  /** What the first upload leaves: one row with its file, one completed session, an empty build. */
  lemma FirstUpload(p: Settings, s: State, user: UserId, content: Content) returns (trace: seq<Event>, t: State)
    requires Initial(s) && Uploadable(p, s, user, content)
    ensures Run(p, s, trace) == t
    ensures p.sha256(content) in t.blobs && t.blobs == map[p.sha256(content) := BlobRow(|content|, user, s.now)]
    ensures t.now == s.now && t.leaked == map[] && t.requests.Keys == {0} && t.requests[0].program == []
    ensures OnlyAnEmptyBuild(t) && NothingPending(t) && t.sessions.Keys == {"1"}
    ensures t.staging == map[] && t.accepted.Keys == {"1"} && t.accounts == UsageAdded(s.accounts, user, |content|)
  {
    hide Run, IsSha256Hex, UsageAdded;
    BuildIsCreated(p, s);
    var s1 := s.(builds := map[BUILD := EMPTY_BUILD]);
    var s2 := SessionOpens(p, s1, "1", user, p.sha256(content), |content|);
    var begin := BeginUpload("1", BUILD, user, p.sha256(content), |content|, 1);
    Then(p, s, [CreateBuild(BUILD)], s1, [begin], s2);
    var upload;
    upload, t := UploadLands(p, s2, 0, "1", user, content);
    Then(p, s, [CreateBuild(BUILD)] + [begin], s2, upload, t);
    trace := [CreateBuild(BUILD)] + [begin] + upload;
    KeysBut(t.requests, s2.requests, 0);
  }

  lemma KeysBut<K, V>(a: map<K, V>, b: map<K, V>, k: K)
    requires a - {k} == b - {k} && k in a
    ensures a.Keys == b.Keys + {k}
  {
    forall x
      ensures x in a <==> x in b || x == k
    {
      assert x in a - {k} <==> x in b - {k};
    }
  }

  lemma StillDoes(s: State, t: State, r: RequestId, q: RequestId)
    requires OthersAsBefore(s, t, r) && q != r && q in s.requests
    ensures q in t.requests && t.requests[q] == s.requests[q]
  {
    assert q in s.requests - {r};
    assert (t.requests - {r})[q] == (s.requests - {r})[q];
  }

  // ---------------------------------------------------------------------------
  // Collection
  // ---------------------------------------------------------------------------

  /** A row old enough to go, and nothing that names or awaits it. */
  ghost predicate OldAndUnwanted(p: Settings, s: State, h: Digest) {
    && h in s.blobs && s.blobs[h].createdAt + p.graceSeconds < s.now
    && (forall b <- s.builds :: forall k :: 0 <= k < |s.builds[b].files| ==> s.builds[b].files[k].blobSha256 != h)
    && (forall id <- s.sessions :: s.sessions[id].status == Pending ==> s.sessions[id].blobSha256 != h)
  }

  function ListingOf(s: State, h: Digest): CollectableBlob
    requires h in s.blobs
  {
    CollectableBlob(h, s.blobs[h].sizeBytes, s.blobs[h].uploadedBy)
  }

  lemma UnwantedIsCollectable(p: Settings, s: State, h: Digest)
    requires OldAndUnwanted(p, s, h)
    ensures Collectable(p, s, h)
  {
  }

  /** A collector lists one row. */
  lemma RowIsListed(p: Settings, s: State, r: RequestId, h: Digest) returns (t: State)
    requires OldAndUnwanted(p, s, h) && r !in s.requests
    ensures Run(p, s, [StartCollection(r, [h])]) == t
    ensures t == s.(requests := t.requests)
    ensures Does(t, r, CollectRow(ListingOf(s, h), s.now)) && OthersAsBefore(s, t, r)
  {
    hide Run, Apply, Collectable, ProgramOf;
    UnwantedIsCollectable(p, s, h);
    CollectionOfOne(p, s, r, h);
    StartIsApplied(p, s, StartCollection(r, [h]));
    JustOneEvent(p, s, StartCollection(r, [h]));
    t := Apply(p, s, StartCollection(r, [h]));
  }

  lemma CollectionOfOne(p: Settings, s: State, r: RequestId, h: Digest)
    requires Collectable(p, s, h)
    ensures ProgramOf(p, s, StartCollection(r, [h]))
         == Some(Request(Housekeeping, [CollectRow(ListingOf(s, h), s.now)]))
  {
    hide Referenced, Awaited;
    assert CollectionProgram(s, [h][1..]) == [];
    assert [CollectRow(ListingOf(s, h), s.now)] + [] == [CollectRow(ListingOf(s, h), s.now)];
    assert forall k :: 0 <= k < |[h]| ==> [h][k] == h;
  }

  /** A collector deletes the row it listed, whatever has become of it, and has the file yet to remove. */
  lemma RowGoes(p: Settings, s: State, r: RequestId, blob: CollectableBlob, listedAt: int) returns (t: State)
    requires Does(s, r, CollectRow(blob, listedAt)) && OldAndUnwanted(p, s, blob.sha256) && blob.uploadedBy != ""
    ensures Run(p, s, [Step(r, Works)]) == t
    ensures t == s.(blobs := s.blobs - {blob.sha256}, requests := t.requests)
    ensures OthersAsBefore(s, t, r)
    ensures t.requests[r].program == [DiscardBlob(blob.sha256), Release(blob.uploadedBy, blob.sizeBytes)]
  {
    hide Run, Stepped, Collectable;
    UnwantedIsCollectable(p, s, blob.sha256);
    CollectStep(p, s, r, blob, listedAt);
    t := Stepped(p, s, r, Works);
    JustOneStep(p, s, r);
    MovedProgram(s.requests, r, AfterCollect(blob, true));
  }
}
