/**
 The run that records a size no content has: a session declares more bytes than the content of its
 digest has, the last of them are reserved and not written, and an empty chunk behind them completes
 the session. It shows that handling a session's chunks one at a time, as `SerialUploads` asks, is
 needed.
 */
module LateWrite {
  import opened Common
  import opened Manifest
  import opened StagingFile
  import opened BlobStores
  import opened Protocol
  import opened Backends
  import opened SerialUploads
  import opened Scenarios

  /** What the completion leaves: a row of the declared size over the shorter content. */
  ghost predicate LandedShort(s: State, t: State, own: set<RequestId>, row: BlobRow, sha256: Digest) {
    && t.now == s.now && t.builds == s.builds
    && t.blobs == s.blobs[sha256 := row] && sha256 in t.stored
    && forall r <- s.requests :: r !in own ==> r in t.requests && t.requests[r] == s.requests[r]
  }

  /** A session some of whose bytes are written, and no chunk has been refused. */
  ghost predicate Halfway(s: State, id: SessionId, file: Content, received: nat, session: Session) {
    && id in s.sessions && s.sessions[id] == session.(receivedBytes := received)
    && FileAt(s.staging, id) == Some(file)
  }

  /** What a request that only writes to its session leaves alone. */
  ghost predicate OnlyItsSession(s: State, t: State, r: RequestId, id: SessionId) {
    && t == s.(sessions := t.sessions, staging := t.staging, accepted := t.accepted, requests := t.requests)
    && OthersAsBefore(s, t, r)
  }

  /** `content` is all of the digest's content, but the session waits for more. */
  lemma ContentArrives(p: Settings, s: State, r: RequestId, id: SessionId, content: Content)
    returns (trace: seq<Event>, t: State)
    requires r !in s.requests && id in s.sessions && id !in s.staging && s.sessions[id].id == id
    requires ChunkIsPlausible(p, s, s.sessions[id].userId, id, 0, content) && |content| < s.sessions[id].declaredSizeBytes
    ensures Run(p, s, trace) == t
    ensures Halfway(t, id, content, |content|, s.sessions[id]) && OnlyItsSession(s, t, r, id)
  {
    hide Run, ChunkIsPlausible;
    var s1, session := ChunkReserved(p, s, r, id, 0, content);
    assert Overwritten("", 0, content) == content;
    t := ChunkWritten(p, s1, r, session, 0, content, content);
    var reserving := [StartChunk(r, s.sessions[id].userId, id, 0, content), Step(r, Works)];
    Then(p, s, reserving, s1, [Step(r, Works)], t);
    trace := reserving + [Step(r, Works)];
  }

  /** A full session is completed by an empty chunk, whatever its file holds. */
  lemma EmptyChunkCompletes(p: Settings, s: State, r: RequestId, id: SessionId, content: Content)
    returns (trace: seq<Event>, t: State)
    requires r !in s.requests && id in s.sessions && s.sessions[id].id == id
    requires FileAt(s.staging, id) == Some(content)
    requires ChunkIsPlausible(p, s, s.sessions[id].userId, id, s.sessions[id].receivedBytes, "")
    requires s.sessions[id].receivedBytes == s.sessions[id].declaredSizeBytes
    ensures Run(p, s, trace) == t
    ensures t == s.(sessions := t.sessions, accepted := t.accepted, requests := t.requests)
    ensures Does(t, r, CheckRow(s.sessions[id])) && OthersAsBefore(s, t, r)
  {
    hide Run, ChunkIsPlausible;
    var size := s.sessions[id].receivedBytes;
    var s1, session := ChunkReserved(p, s, r, id, size, "");
    assert session == s.sessions[id];
    t := ChunkWritten(p, s1, r, session, size, "", content);
    assert s.staging[id := content] == s.staging;
    var reserving := [StartChunk(r, s.sessions[id].userId, id, size, ""), Step(r, Works)];
    Then(p, s, reserving, s1, [Step(r, Works)], t);
    trace := reserving + [Step(r, Works)];
  }

  /** `content` arrives, `rest` is reserved and left there, and an empty chunk completes the session. */
  lemma ShortUploadLands(p: Settings, s: State, first: RequestId, second: RequestId, third: RequestId, id: SessionId,
                         user: UserId, content: Content, rest: Content)
    returns (trace: seq<Event>, t: State)
    requires Opened(p, s, id, user, p.sha256(content), |content| + |rest|) && rest != ""
    requires |content| <= p.maxChunkBytes && |rest| <= p.maxChunkBytes && p.sha256(content) !in s.blobs
    requires first !in s.requests && second !in s.requests && third !in s.requests
    requires first != second && first != third && second != third
    ensures Run(p, s, trace) == t
    ensures LandedShort(s, t, {first, second, third}, BlobRow(|content| + |rest|, user, s.now), p.sha256(content))
  {
    hide Run, IsSha256Hex, UsageAdded, StatusSet;
    var arriving, s1 := ContentArrives(p, s, first, id, content);
    NewIdStaysNew(s, s1, first, second);
    NewIdStaysNew(s, s1, first, third);
    var s2, last := ChunkReserved(p, s1, second, id, |content|, rest);
    var reserving := [StartChunk(second, user, id, |content|, rest), Step(second, Works)];
    Then(p, s, arriving, s1, reserving, s2);
    NewIdStaysNew(s1, s2, second, third);
    var completing, s3 := EmptyChunkCompletes(p, s2, third, id, content);
    Then(p, s, arriving + reserving, s2, completing, s3);
    var landing;
    landing, t := ContentLands(p, s3, third, last, content);
    trace := arriving + reserving + completing + landing;
    Then(p, s, arriving + reserving + completing, s3, landing, t);
    OthersAreLeftAlone(s, s1, s1, first);
    OthersAreLeftAlone(s1, s2, s2, second);
    OthersAreLeftAlone(s2, s3, t, third);
  }

  lemma NewIdStaysNew(s: State, t: State, r: RequestId, q: RequestId)
    requires t.requests - {r} == s.requests - {r} && q != r && q !in s.requests
    ensures q !in t.requests
  {
    assert q !in t.requests - {r};
  }

  lemma OthersAreLeftAlone(s: State, m: State, t: State, r: RequestId)
    requires m.requests - {r} == s.requests - {r} && t.requests - {r} == m.requests - {r}
    ensures forall q <- s.requests :: q != r ==> q in t.requests && t.requests[q] == s.requests[q]
  {
    assert forall q <- s.requests :: q != r ==> q in t.requests - {r} && (t.requests - {r})[q] == (s.requests - {r})[q];
  }

  /**
   From empty accounts, whatever the hash, as long as it is injective: the row of a content of
   |content| bytes records |content| + |rest|.
   */
  lemma EmptyChunkRecordsAWrongSize(p: Settings, s: State, user: UserId, content: Content, rest: Content)
    returns (trace: seq<Event>)
    requires Initial(s) && rest != "" && IsSha256Hex(p.sha256(content))
    requires |content| <= p.maxChunkBytes && |rest| <= p.maxChunkBytes && |content| + |rest| <= p.maxBlobBytes
    requires MayCharge(s.accounts, user, |content| + |rest|)
    ensures var t := Run(p, s, trace);
            p.sha256(content) in t.blobs && t.blobs[p.sha256(content)].sizeBytes == |content| + |rest|
    ensures Injective(p.sha256) ==> !HonestRows(p, Run(p, s, trace))
  {
    hide Run, IsSha256Hex, Injective;
    var h, size := p.sha256(content), |content| + |rest|;
    BuildIsCreated(p, s);
    var s1 := s.(builds := map[BUILD := EMPTY_BUILD]);
    var s2 := SessionOpens(p, s1, "1", user, h, size);
    var begin := BeginUpload("1", BUILD, user, h, size, 1);
    Then(p, s, [CreateBuild(BUILD)], s1, [begin], s2);
    var upload, t := ShortUploadLands(p, s2, 0, 1, 2, "1", user, content, rest);
    trace := [CreateBuild(BUILD)] + [begin] + upload;
    Then(p, s, [CreateBuild(BUILD)] + [begin], s2, upload, t);
    if Injective(p.sha256) && HonestRows(p, t) {
      assert HonestSize(p, h, |content|);
      assert t.blobs[h].sizeBytes == size;
      HonestSizesAgree(p, h, |content|, size);
      assert false;
    }
  }
}
