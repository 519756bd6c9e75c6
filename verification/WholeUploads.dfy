/**
 What a negotiation and a chunk ask for, what a good chunk leaves, and what they add up to: content sent in
 order by its owner is always accepted, and its last piece completes the upload.
 */
module WholeUploads {
  import opened Common
  import opened Manifest
  import opened StagingFile
  import opened BlobStores
  import opened Protocol
  import opened Backends

  // ---------------------------------------------------------------------------
  // What the calls ask for
  // ---------------------------------------------------------------------------

  /** Why an upload is refused before a session is looked for. The quota test is advisory. */
  function BeginRefusal(p: Settings, s: State, user: UserId, build: BuildId, sha256: Digest, sizeBytes: int): Option<ErrorCode> {
    if build !in s.builds then Some(NotFound)
    else if s.builds[build].status != Uploading then Some(Conflict)
    else if !IsSha256Hex(sha256) || sizeBytes < 0 || sizeBytes > p.maxBlobBytes then Some(InvalidInput)
    else if sha256 in s.blobs || |OpenSessions(s.sessions, s.now, user)| >= p.maxOpenSessions then Some(Conflict)
    else if user !in s.accounts then Some(Unauthenticated)
    else if s.accounts[user].usedBytes + sizeBytes > s.accounts[user].quotaBytes then Some(QuotaExceeded)
    else None
  }

  /** Why a chunk is refused before anything is reserved. */
  function ChunkRefusal(p: Settings, s: State, user: UserId, id: SessionId, offset: int, data: Content): Option<ErrorCode> {
    if id !in s.sessions || s.sessions[id].userId != user then Some(NotFound)
    else
      var session := s.sessions[id];
      if session.status != Pending || session.expiresAt <= s.now then Some(Conflict)
      else if |data| > p.maxChunkBytes then Some(InvalidInput)
      else if offset != session.receivedBytes then Some(Conflict)
      else if offset + |data| > session.declaredSizeBytes then Some(InvalidInput)
      else None
  }

  /** The content is held already, or can be charged and hashes to what was declared. */
  predicate Completes(p: Settings, s: State, session: Session, staging: map<SessionId, Content>, io: Io) {
    || session.blobSha256 in s.blobs
    || (&& MayCharge(s.accounts, session.userId, session.declaredSizeBytes)
        && CommitSucceeds(staging, session.id, session.blobSha256, io, p.sha256))
  }

  /** The chunk fits, can be written, and if it is the last one the session completes. */
  predicate ChunkSucceeds(p: Settings, s: State, user: UserId, id: SessionId, offset: int, data: Content, writeIo: Io,
                          commitIo: Io)
  {
    && ChunkIsPlausible(p, s, user, id, offset, data)
    && WriteSucceeds(s.staging, id, offset, data, writeIo)
    && (offset + |data| < s.sessions[id].declaredSizeBytes
        || Completes(p, s, s.sessions[id], StagingAfterWrite(s.staging, id, offset, data, writeIo), commitIo))
  }

  // ---------------------------------------------------------------------------
  // What a good chunk leaves
  // ---------------------------------------------------------------------------

  function Dropped(staging: map<SessionId, Content>, id: SessionId): map<SessionId, Content> {
    staging - {id}
  }

  /** Held content costs nothing; new content is charged, stored and recorded. The staging file goes either way. */
  function AfterCompletion(s: State, session: Session): (t: State)
    ensures t.now == s.now
  {
    var id, sha256 := session.id, session.blobSha256;
    var marked := s.(sessions := StatusSet(s.sessions, id, Completed), staging := Dropped(s.staging, id));
    if sha256 in s.blobs then marked
    else
      marked.(accounts := UsageAdded(s.accounts, session.userId, session.declaredSizeBytes),
              blobs := RowInserted(s.blobs, sha256, BlobRow(session.declaredSizeBytes, session.userId, s.now)),
              stored := StoredAfterCommit(s.stored, s.staging, id, sha256, true))
  }

  /** The range is reserved and written, and a session that has everything completes. */
  function AfterGoodChunk(s: State, id: SessionId, data: Content): (t: State)
    requires id in s.sessions && s.sessions[id].id == id
    requires WriteSucceeds(s.staging, id, s.sessions[id].receivedBytes, data, Works)
    ensures t.now == s.now
  {
    var session := s.sessions[id].(receivedBytes := s.sessions[id].receivedBytes + |data|);
    var written := s.(sessions := s.sessions[id := session],
                      staging := StagingAfterWrite(s.staging, id, s.sessions[id].receivedBytes, data, Works));
    if !session.Complete() then written else AfterCompletion(written, session)
  }

  /** The same tables, files and clock; requests under way and the history apart. */
  ghost predicate SameTables(s: State, t: State) {
    s == t.(requests := s.requests, accepted := s.accepted, leaked := s.leaked)
  }

  // ---------------------------------------------------------------------------
  // A whole upload
  // ---------------------------------------------------------------------------

  function Whole(pieces: seq<Content>): Content {
    if pieces == [] then "" else Whole(pieces[..|pieces| - 1]) + pieces[|pieces| - 1]
  }

  /** A session of this user that waits for this content, with room for it and nobody holding it yet. */
  ghost predicate Awaits(p: Settings, s: State, user: UserId, id: SessionId, content: Content) {
    && id in s.sessions
    && var session := s.sessions[id];
    && session.id == id && session.userId == user && session.status == Pending
    && session.declaredSizeBytes == |content| && session.blobSha256 == p.sha256(content)
    && IsSha256Hex(session.blobSha256) && session.blobSha256 !in s.blobs
    && user in s.accounts && s.accounts[user].usedBytes + |content| <= s.accounts[user].quotaBytes
  }

  /** So much of it has arrived. */
  ghost predicate Arrived(s: State, id: SessionId, sent: Content)
    requires id in s.sessions
  {
    s.sessions[id].receivedBytes == |sent| && (FileAt(s.staging, id) == Some(sent) || (sent == "" && id !in s.staging))
  }

  /** The session is completed, its user charged, the content stored and recorded, and nothing else changed. */
  ghost predicate Uploaded(s: State, t: State, user: UserId, id: SessionId, content: Content)
    requires id in s.sessions && user in s.accounts
  {
    var session, sha256 := s.sessions[id], s.sessions[id].blobSha256;
    && t.sessions == s.sessions[id := session.(receivedBytes := |content|, status := Completed)]
    && t.accounts == s.accounts[user := s.accounts[user].(usedBytes := s.accounts[user].usedBytes + |content|)]
    && t.blobs == s.blobs[sha256 := BlobRow(|content|, user, t.now)]
    && t.stored == (if sha256 in s.stored then s.stored else s.stored[sha256 := content])
    && t.staging == s.staging - {id} && t.builds == s.builds
  }

  lemma AppendingWorks(staging: map<SessionId, Content>, id: SessionId, sent: Content, piece: Content)
    requires FileAt(staging, id) == Some(sent) || (sent == "" && id !in staging)
    ensures WriteSucceeds(staging, id, |sent|, piece, Works)
    ensures StagingAfterWrite(staging, id, |sent|, piece, Works) == staging[id := sent + piece]
  {
    WritingAtTheEndAppends(sent, piece);
  }

  /** The next piece is accepted. */
  lemma NextPieceSucceeds(p: Settings, s: State, user: UserId, id: SessionId, content: Content, sent: Content, piece: Content)
    requires Awaits(p, s, user, id, content) && Arrived(s, id, sent) && s.now < s.sessions[id].expiresAt
    requires |piece| <= p.maxChunkBytes && sent + piece <= content
    ensures ChunkSucceeds(p, s, user, id, |sent|, piece, Works, Works)
  {
    hide IsSha256Hex, StagingAfterWrite, WriteSucceeds;
    AppendingWorks(s.staging, id, sent, piece);
    assert |sent + piece| == |content| ==> sent + piece == content;
  }

  lemma PieceIsKept(p: Settings, s: State, user: UserId, id: SessionId, content: Content, sent: Content, piece: Content)
    requires Awaits(p, s, user, id, content) && Arrived(s, id, sent) && |sent + piece| < |content|
    requires WriteSucceeds(s.staging, id, |sent|, piece, Works)
    ensures AfterGoodChunk(s, id, piece)
         == s.(sessions := s.sessions[id := s.sessions[id].(receivedBytes := |sent + piece|)],
               staging := s.staging[id := sent + piece])
  {
    hide IsSha256Hex, StagingAfterWrite, WriteSucceeds, AfterCompletion;
    AppendingWorks(s.staging, id, sent, piece);
  }

  lemma LastPieceIsDone(p: Settings, s: State, user: UserId, id: SessionId, content: Content, sent: Content, piece: Content)
    requires Awaits(p, s, user, id, content) && Arrived(s, id, sent) && sent + piece == content
    requires WriteSucceeds(s.staging, id, |sent|, piece, Works)
    ensures Uploaded(s, AfterGoodChunk(s, id, piece), user, id, content)
  {
    hide IsSha256Hex, StagingAfterWrite, WriteSucceeds, AfterCompletion, Uploaded;
    AppendingWorks(s.staging, id, sent, piece);
    var session := s.sessions[id].(receivedBytes := |content|);
    var written := s.(sessions := s.sessions[id := session], staging := s.staging[id := content]);
    assert AfterGoodChunk(s, id, piece) == AfterCompletion(written, session);
    CompletionIsDone(s, written, user, id, content);
  }

  lemma CompletionIsDone(s: State, t: State, user: UserId, id: SessionId, content: Content)
    requires id in s.sessions && s.sessions[id].id == id && s.sessions[id].userId == user && s.sessions[id].status == Pending
    requires s.sessions[id].declaredSizeBytes == |content| && s.sessions[id].blobSha256 !in s.blobs
    requires user in s.accounts && s.accounts[user].usedBytes + |content| <= s.accounts[user].quotaBytes
    requires t == s.(sessions := s.sessions[id := s.sessions[id].(receivedBytes := |content|)],
                     staging := s.staging[id := content])
    ensures Uploaded(s, AfterCompletion(t, t.sessions[id]), user, id, content)
  {
    assert s.staging[id := content] - {id} == s.staging - {id};
  }

  lemma {:induction false} PrefixesOfTheWhole(pieces: seq<Content>, k: nat)
    requires k <= |pieces|
    ensures Whole(pieces[..k]) <= Whole(pieces)
    ensures k < |pieces| && pieces[|pieces| - 1] != "" ==> |Whole(pieces[..k])| < |Whole(pieces)|
    decreases |pieces| - k
  {
    if k == |pieces| {
      assert pieces[..k] == pieces;
    } else {
      var shorter := pieces[..|pieces| - 1];
      assert shorter[..k] == pieces[..k];
      if k == |shorter| {
        assert shorter[..k] == shorter;
      } else {
        WholeGrows(shorter, k);
      }
    }
  }

  lemma {:induction false} WholeGrows(pieces: seq<Content>, k: nat)
    requires k <= |pieces|
    ensures Whole(pieces[..k]) <= Whole(pieces)
    decreases |pieces|
  {
    if k == |pieces| {
      assert pieces[..k] == pieces;
    } else {
      assert pieces[..|pieces| - 1][..k] == pieces[..k];
      WholeGrows(pieces[..|pieces| - 1], k);
    }
  }

  /** Pieces a client may cut a content into: none too long, and none left over when the content is complete. */
  ghost predicate Cut(p: Settings, pieces: seq<Content>) {
    && pieces != [] && (|pieces| == 1 || pieces[|pieces| - 1] != "")
    && forall k :: 0 <= k < |pieces| ==> |pieces[k]| <= p.maxChunkBytes
  }

  /** One moment for each piece, in order, from now on and before the session expires. */
  ghost predicate InTime(now: int, times: seq<int>, expiresAt: int) {
    && (forall k :: 0 <= k < |times| ==> now <= times[k] < expiresAt)
    && (forall j, k :: 0 <= j < k < |times| ==> times[j] <= times[k])
  }

  lemma EarlierIsInTime(now: int, times: seq<int>, expiresAt: int, n: nat)
    requires n <= |times| && InTime(now, times, expiresAt)
    ensures InTime(now, times[..n], expiresAt)
    ensures n < |times| ==> now <= times[n] < expiresAt
  {
  }

  /** The tables after the first pieces have been sent at these times. */
  ghost function AfterPieces(s: State, id: SessionId, pieces: seq<Content>, times: seq<int>): State
    requires |times| == |pieces|
  {
    if pieces == [] then s
    else
      var n := |pieces| - 1;
      var t := AfterPieces(s, id, pieces[..n], times[..n]).(now := times[n]);
      if && id in t.sessions && t.sessions[id].id == id
         && WriteSucceeds(t.staging, id, t.sessions[id].receivedBytes, pieces[n], Works)
      then AfterGoodChunk(t, id, pieces[n]) else t
  }

  /** Before the last piece, the session has what was sent and nothing else has changed. */
  ghost predicate Midway(s: State, t: State, id: SessionId, sent: Content)
    requires id in s.sessions
  {
    && t.sessions == s.sessions[id := s.sessions[id].(receivedBytes := |sent|)]
    && t.staging - {id} == s.staging - {id} && Arrived(t, id, sent)
    && t == s.(now := t.now, sessions := t.sessions, staging := t.staging)
  }

  lemma MidwayGrows(s: State, t: State, id: SessionId, sent: Content, more: Content)
    requires id in s.sessions && Midway(s, t, id, sent)
    ensures Midway(s, t.(sessions := t.sessions[id := t.sessions[id].(receivedBytes := |more|)],
                         staging := t.staging[id := more]), id, more)
  {
    var staging := t.staging[id := more];
    assert staging - {id} == t.staging - {id};
  }

  lemma {:induction false} PiecesArrive(p: Settings, s: State, user: UserId, id: SessionId, content: Content,
                                        pieces: seq<Content>, times: seq<int>)
    requires Awaits(p, s, user, id, content) && Arrived(s, id, "")
    requires |times| == |pieces| && InTime(s.now, times, s.sessions[id].expiresAt)
    requires forall k :: 0 <= k < |pieces| ==> |pieces[k]| <= p.maxChunkBytes
    requires Whole(pieces) <= content && (pieces != [] ==> Whole(pieces) != content)
    ensures Midway(s, AfterPieces(s, id, pieces, times), id, Whole(pieces))
    ensures AfterPieces(s, id, pieces, times).now == if times == [] then s.now else times[|times| - 1]
    decreases |pieces|
  {
    hide IsSha256Hex, StagingAfterWrite, WriteSucceeds, AfterGoodChunk, ChunkSucceeds;
    if pieces != [] {
      var n := |pieces| - 1;
      EarlierIsInTime(s.now, times, s.sessions[id].expiresAt, n);
      PiecesArrive(p, s, user, id, content, pieces[..n], times[..n]);
      var sent := Whole(pieces[..n]);
      var t := AfterPieces(s, id, pieces[..n], times[..n]).(now := times[n]);
      MidwayAwaits(p, s, t, user, id, content, sent);
      AppendingWorks(t.staging, id, sent, pieces[n]);
      PieceIsKept(p, t, user, id, content, sent, pieces[n]);
      MidwayGrows(s, t, id, sent, sent + pieces[n]);
    }
  }

  lemma MidwayAwaits(p: Settings, s: State, t: State, user: UserId, id: SessionId, content: Content, sent: Content)
    requires Awaits(p, s, user, id, content) && Midway(s, t, id, sent)
    ensures Awaits(p, t, user, id, content) && t.sessions[id].expiresAt == s.sessions[id].expiresAt
  {
    hide IsSha256Hex;
  }

  lemma MidwayThenDone(s: State, t: State, u: State, user: UserId, id: SessionId, sent: Content, content: Content)
    requires id in s.sessions && user in s.accounts
    requires Midway(s, t, id, sent) && id in t.sessions && Uploaded(t, u, user, id, content)
    ensures Uploaded(s, u, user, id, content)
  {
  }

  /** When piece `k` is sent, what is before it has arrived. */
  lemma EarlierPiecesArrived(p: Settings, s: State, user: UserId, id: SessionId, pieces: seq<Content>, times: seq<int>, k: nat)
    requires Awaits(p, s, user, id, Whole(pieces)) && Arrived(s, id, "") && Cut(p, pieces) && k < |pieces|
    requires |times| == |pieces| && InTime(s.now, times, s.sessions[id].expiresAt)
    ensures var t := AfterPieces(s, id, pieces[..k], times[..k]).(now := times[k]);
            && Midway(s, t, id, Whole(pieces[..k])) && Awaits(p, t, user, id, Whole(pieces))
            && t.now < t.sessions[id].expiresAt
  {
    hide IsSha256Hex, Whole, InTime;
    EarlierIsInTime(s.now, times, s.sessions[id].expiresAt, k);
    ProperPrefix(p, pieces, k);
    PiecesArrive(p, s, user, id, Whole(pieces), pieces[..k], times[..k]);
    var t := AfterPieces(s, id, pieces[..k], times[..k]).(now := times[k]);
    MidwayAwaits(p, s, t, user, id, Whole(pieces), Whole(pieces[..k]));
  }

  lemma PieceSucceeds(p: Settings, s: State, user: UserId, id: SessionId, pieces: seq<Content>, times: seq<int>, k: nat)
    requires Awaits(p, s, user, id, Whole(pieces)) && Arrived(s, id, "") && Cut(p, pieces) && k < |pieces|
    requires |times| == |pieces| && InTime(s.now, times, s.sessions[id].expiresAt)
    ensures var t := AfterPieces(s, id, pieces[..k], times[..k]).(now := times[k]);
            ChunkSucceeds(p, t, user, id, |Whole(pieces[..k])|, pieces[k], Works, Works)
  {
    hide IsSha256Hex, ChunkSucceeds, Whole, Awaits, InTime, AfterPieces;
    EarlierPiecesArrived(p, s, user, id, pieces, times, k);
    ProperPrefix(p, pieces, k);
    var t := AfterPieces(s, id, pieces[..k], times[..k]).(now := times[k]);
    NextPieceSucceeds(p, t, user, id, Whole(pieces), Whole(pieces[..k]), pieces[k]);
  }

  lemma LastPieceCompletes(p: Settings, s: State, user: UserId, id: SessionId, pieces: seq<Content>, times: seq<int>)
    requires Awaits(p, s, user, id, Whole(pieces)) && Arrived(s, id, "") && Cut(p, pieces)
    requires |times| == |pieces| && InTime(s.now, times, s.sessions[id].expiresAt)
    ensures Uploaded(s, AfterPieces(s, id, pieces, times), user, id, Whole(pieces))
    ensures AfterPieces(s, id, pieces, times).now == times[|times| - 1]
  {
    hide IsSha256Hex, Whole, InTime, WriteSucceeds, Uploaded, AfterGoodChunk;
    var n, content := |pieces| - 1, Whole(pieces);
    var sent := Whole(pieces[..n]);
    EarlierPiecesArrived(p, s, user, id, pieces, times, n);
    ProperPrefix(p, pieces, n);
    var t := AfterPieces(s, id, pieces[..n], times[..n]).(now := times[n]);
    AppendingWorks(t.staging, id, sent, pieces[n]);
    LastPieceIsDone(p, t, user, id, content, sent, pieces[n]);
    MidwayThenDone(s, t, AfterGoodChunk(t, id, pieces[n]), user, id, sent, content);
  }

  /** What was sent before piece `k` is not everything, and the piece continues it. */
  lemma ProperPrefix(p: Settings, pieces: seq<Content>, k: nat)
    requires Cut(p, pieces) && k < |pieces|
    ensures Whole(pieces[..k]) + pieces[k] <= Whole(pieces) && Whole(pieces[..k]) <= Whole(pieces)
    ensures k > 0 ==> Whole(pieces[..k]) != Whole(pieces)
    ensures k == 0 ==> Whole(pieces[..k]) == ""
    ensures k == |pieces| - 1 ==> Whole(pieces[..k]) + pieces[k] == Whole(pieces)
  {
    PrefixesOfTheWhole(pieces, k);
    PrefixesOfTheWhole(pieces, k + 1);
    assert pieces[..k + 1][..k] == pieces[..k];
  }

  /**
   The content is sent in order by its owner, in pieces, in time, with nothing going wrong: every call
   succeeds, and the last one leaves the upload done.
   */
  lemma InOrderUploadsComplete(p: Settings, s: State, user: UserId, id: SessionId, pieces: seq<Content>, times: seq<int>)
    requires Awaits(p, s, user, id, Whole(pieces)) && Arrived(s, id, "") && Cut(p, pieces)
    requires |times| == |pieces| && InTime(s.now, times, s.sessions[id].expiresAt)
    ensures forall k :: 0 <= k < |pieces| ==>
              var t := AfterPieces(s, id, pieces[..k], times[..k]).(now := times[k]);
              ChunkSucceeds(p, t, user, id, |Whole(pieces[..k])|, pieces[k], Works, Works)
    ensures Uploaded(s, AfterPieces(s, id, pieces, times), user, id, Whole(pieces))
    ensures AfterPieces(s, id, pieces, times).now == times[|times| - 1]
  {
    hide IsSha256Hex, StagingAfterWrite, WriteSucceeds, AfterGoodChunk, ChunkSucceeds, Whole;
    forall k | 0 <= k < |pieces|
      ensures var t := AfterPieces(s, id, pieces[..k], times[..k]).(now := times[k]);
              ChunkSucceeds(p, t, user, id, |Whole(pieces[..k])|, pieces[k], Works, Works)
    {
      PieceSucceeds(p, s, user, id, pieces, times, k);
    }
    LastPieceCompletes(p, s, user, id, pieces, times);
  }

  /** Nobody is uploading this content for the build, and the user may still upload it. */
  ghost predicate MayUpload(p: Settings, s: State, user: UserId, build: BuildId, id: SessionId, content: Content) {
    var sha256 := p.sha256(content);
    && build in s.builds && s.builds[build].status == Uploading && !HasOpenSession(s, build, sha256)
    && IsSha256Hex(sha256) && |content| <= p.maxBlobBytes && sha256 !in s.blobs
    && |OpenSessions(s.sessions, s.now, user)| < p.maxOpenSessions
    && user in s.accounts && s.accounts[user].usedBytes + |content| <= s.accounts[user].quotaBytes
    && id !in s.accepted && id !in s.sessions && id !in s.staging
  }

  /** From the negotiation on: it is not refused, every piece is accepted, and the last one leaves the upload done. */
  lemma NegotiatedUploadsComplete(p: Settings, s: State, user: UserId, build: BuildId, id: SessionId,
                                  pieces: seq<Content>, times: seq<int>)
    requires MayUpload(p, s, user, build, id, Whole(pieces)) && Cut(p, pieces)
    requires |times| == |pieces| && InTime(s.now, times, s.now + p.sessionSeconds)
    ensures BeginRefusal(p, s, user, build, p.sha256(Whole(pieces)), |Whole(pieces)|) == None
    ensures var sha256 := p.sha256(Whole(pieces));
            var t := Apply(p, s, BeginUpload(id, build, user, sha256, |Whole(pieces)|, p.sessionSeconds));
            && id in t.sessions && user in t.accounts
            && (forall k :: 0 <= k < |pieces| ==>
                 var u := AfterPieces(t, id, pieces[..k], times[..k]).(now := times[k]);
                 ChunkSucceeds(p, u, user, id, |Whole(pieces[..k])|, pieces[k], Works, Works))
            && Uploaded(t, AfterPieces(t, id, pieces, times), user, id, Whole(pieces))
  {
    hide IsSha256Hex, HasOpenSession, OpenSessions, Whole, Apply, AfterPieces, ChunkSucceeds, Uploaded, InTime, Cut;
    var content := Whole(pieces);
    var event := BeginUpload(id, build, user, p.sha256(content), |content|, p.sessionSeconds);
    OpeningIsApplied(p, s, id, build, user, p.sha256(content), |content|, p.sessionSeconds);
    InOrderUploadsComplete(p, Apply(p, s, event), user, id, pieces, times);
  }
}
