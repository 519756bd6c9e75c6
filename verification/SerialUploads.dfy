/**
 What holds when the chunks of each session are handled one at a time: the staging file is the
 concatenation of the accepted chunks, and every recorded size is the length of its content.
 Aborts, sweeps, collections, finalizations and uploads of other sessions interleave freely.
 */
module SerialUploads {
  import opened Common
  import opened Manifest
  import opened StagingFile
  import opened Protocol
  import opened Frames
  import opened Text
  import opened UploadSafety

  /** Some content of the recorded length hashes to the recorded digest. */
  ghost predicate HonestSize(p: Settings, sha256: Digest, size: nat) {
    exists content: Content :: p.sha256(content) == sha256 && |content| == size
  }

  ghost predicate HonestRows(p: Settings, s: State) {
    forall h <- s.blobs :: HonestSize(p, h, s.blobs[h].sizeBytes)
  }

  /** A digest has at most one honest size. */
  lemma HonestSizesAgree(p: Settings, sha256: Digest, a: nat, b: nat)
    requires Injective(p.sha256) && HonestSize(p, sha256, a) && HonestSize(p, sha256, b)
    ensures a == b
  {
    var x :| p.sha256(x) == sha256 && |x| == a;
    var y :| p.sha256(y) == sha256 && |y| == b;
    assert x == y;
  }

  // ---------------------------------------------------------------------------
  // One session: what it accepted, what its staging file holds, what its request still does
  // ---------------------------------------------------------------------------

  datatype View = View(id: SessionId, log: seq<Chunk>, file: Option<Content>)

  ghost function ViewOf(s: State, id: SessionId): View {
    View(id, if id in s.accepted then s.accepted[id] else [], StagingOf(s, id))
  }

  /** A call that only cleans up after a session. */
  predicate IsCleanup(action: Action, id: SessionId) {
    action == MarkAborted(id) || action == MarkCompleted(id) || action == DiscardStaging(id) || action.Release?
  }

  /** What the program of a chunk request can look like, and what it knows about its session. */
  ghost predicate Sound(p: Settings, v: View, program: seq<Action>) {
    program == [] ||
    match program[0]
    case Reserve(id, _, _) => |program| == 1 && id == v.id
    case Write(session, _, _) => |program| == 1 && session.id == v.id && WriteIsDue(v, program[0])
    case CheckRow(session) => |program| == 1 && session.id == v.id && session.declaredSizeBytes == |Joined(v.log)|
    case Charge(session) => |program| == 1 && session.id == v.id && session.declaredSizeBytes == |Joined(v.log)|
    case Commit(session) => |program| == 1 && session.id == v.id && session.declaredSizeBytes == |Joined(v.log)|
    case Record(session) =>
      |program| == 1 && session.id == v.id && v.file == None
      && HonestSize(p, session.blobSha256, session.declaredSizeBytes)
    case _ => IsCleanup(program[0], v.id) && (|program| == 1 || (|program| == 2 && IsCleanup(program[1], v.id)))
  }

  /** The last accepted range is reserved but not written. */
  ghost predicate WriteIsDue(v: View, write: Action)
    requires write.Write?
  {
    && v.log != []
    && v.log[|v.log| - 1] == Chunk(write.at, write.bytes)
    && write.at == |Joined(v.log[..|v.log| - 1])|
    && write.session.receivedBytes == |Joined(v.log)| <= write.session.declaredSizeBytes
  }

  predicate Discards(program: seq<Action>) {
    (|program| > 0 && program[0].DiscardStaging?) || (|program| > 1 && program[1].DiscardStaging?)
  }

  /** The staging file, if there is one, is the concatenation of the chunks written so far. */
  ghost predicate FileAgrees(v: View, program: seq<Action>) {
    v.file.Some? ==>
      if program != [] && program[0].Write? then v.log != [] && v.file.value == Joined(v.log[..|v.log| - 1])
      else Discards(program) || v.file.value == Joined(v.log)
  }

  ghost predicate InOrder(p: Settings, v: View, program: seq<Action>) {
    Sound(p, v, program) && FileAgrees(v, program)
  }

  // ---------------------------------------------------------------------------
  // One call of a chunk request, seen from its session
  // ---------------------------------------------------------------------------

  lemma ReserveInOrder(p: Settings, s: State, id: SessionId, offset: int, data: Content)
    requires AllTiled(s) && InOrder(p, ViewOf(s, id), [Reserve(id, offset, data)])
    ensures var o := ExecuteReserve(s, id, offset, data);
            InOrder(p, ViewOf(o.state, id), o.next)
  {
    hide Joined, Tiled, HonestSize, ExecuteReserve, InOrder;
    var o := ExecuteReserve(s, id, offset, data);
    if o.next != [] {
      ReserveAppends(s, id, offset, data);
      assert SessionTiled(s, id);
      AppendedTile(s.accepted[id], Chunk(offset, data));
      ReservedInOrder(p, ViewOf(s, id), ViewOf(o.state, id), o.state.sessions[id], offset, data);
    } else {
      ReserveRefuses(s, id, offset, data);
      NothingLeftInOrder(p, ViewOf(s, id), Reserve(id, offset, data));
    }
  }

  /** A range is handed out behind what has been accepted. */
  lemma ReservedInOrder(p: Settings, v: View, w: View, session: Session, offset: int, data: Content)
    requires InOrder(p, v, [Reserve(v.id, offset, data)])
    requires w == v.(log := v.log + [Chunk(offset, data)]) && session.id == v.id && offset == |Joined(v.log)|
    requires session.receivedBytes == |Joined(w.log)| <= session.declaredSizeBytes
    ensures InOrder(p, w, [Write(session, offset, data)])
  {
    hide Joined, HonestSize;
    assert w.log[..|w.log| - 1] == v.log;
  }

  lemma NothingLeftInOrder(p: Settings, v: View, reserve: Action)
    requires reserve.Reserve? && InOrder(p, v, [reserve])
    ensures InOrder(p, v, [])
  {
    hide Joined, HonestSize;
  }

  lemma ReserveAppends(s: State, id: SessionId, offset: int, data: Content)
    requires AllTiled(s) && ExecuteReserve(s, id, offset, data).next != []
    ensures var t := ExecuteReserve(s, id, offset, data).state;
            && id in s.sessions && id in s.accepted && id in t.accepted && id in t.sessions
            && t.accepted[id] == s.accepted[id] + [Chunk(offset, data)]
            && offset == s.sessions[id].receivedBytes
            && t.sessions[id].id == s.sessions[id].id
            && t.sessions[id].receivedBytes == s.sessions[id].receivedBytes + |data| <= t.sessions[id].declaredSizeBytes
  {
    hide Joined, Tiled;
    assert SessionTiled(s, id);
  }

  lemma ReserveRefuses(s: State, id: SessionId, offset: int, data: Content)
    requires ExecuteReserve(s, id, offset, data).next == []
    ensures ExecuteReserve(s, id, offset, data).state == s
  {
  }

  lemma WriteInOrder(p: Settings, s: State, session: Session, at: int, bytes: Content, io: Io)
    requires InOrder(p, ViewOf(s, session.id), [Write(session, at, bytes)])
    ensures var o := ExecuteWrite(s, session, at, bytes, io);
            InOrder(p, ViewOf(o.state, session.id), o.next)
  {
    hide Joined, HonestSize, ExecuteWrite, InOrder;
    var v, o := ViewOf(s, session.id), ExecuteWrite(s, session, at, bytes, io);
    DueWriteAppends(p, v, session, at, bytes);
    WriteOutcomes(s, session, at, bytes, io, Joined(v.log));
    WrittenInOrder(p, v, ViewOf(o.state, session.id), session, at, bytes);
  }

  /** A due write that works makes the file all of what was accepted. */
  lemma DueWriteAppends(p: Settings, v: View, session: Session, at: int, bytes: Content)
    requires InOrder(p, v, [Write(session, at, bytes)])
    ensures WriteAt(v.file, at, bytes) == None || WriteAt(v.file, at, bytes) == Some(Joined(v.log))
  {
    hide HonestSize, Overwritten;
    var before := Joined(v.log[..|v.log| - 1]);
    assert Joined(v.log) == before + bytes;
    if v.file.Some? {
      WritingAtTheEndAppends(before, bytes);
    } else if at == 0 {
      WritingAtTheEndAppends("", bytes);
      assert before == "";
    }
  }

  lemma WriteOutcomes(s: State, session: Session, at: int, bytes: Content, io: Io, file: Content)
    requires WriteAt(StagingOf(s, session.id), at, bytes) in {None, Some(file)}
    ensures var o := ExecuteWrite(s, session, at, bytes, io);
            && o.state.accepted == s.accepted
            && (|| o.next == AbortProgram(session.id)
                || (StagingOf(o.state, session.id) == Some(file)
                    && o.next == if session.Complete() then [CheckRow(session)] else []))
  {
    hide StagingFile.WriteAt, AbortProgram;
  }

  lemma WrittenInOrder(p: Settings, v: View, w: View, session: Session, at: int, bytes: Content)
    requires InOrder(p, v, [Write(session, at, bytes)]) && w.id == v.id && w.log == v.log
    ensures InOrder(p, w, AbortProgram(v.id))
    ensures w.file == Some(Joined(w.log)) ==> InOrder(p, w, if session.Complete() then [CheckRow(session)] else [])
  {
    hide Joined, HonestSize;
  }

  lemma CommitInOrder(p: Settings, s: State, session: Session, io: Io)
    requires InOrder(p, ViewOf(s, session.id), [Commit(session)])
    ensures var o := ExecuteCommit(p, s, session, io);
            InOrder(p, ViewOf(o.state, session.id), o.next)
  {
    hide Joined, ExecuteCommit, WithoutStaging;
    CommitHashes(p, s, session, io);
    var next := ExecuteCommit(p, s, session, io).next;
    if next == [Record(session)] {
      assert HonestSize(p, session.blobSha256, session.declaredSizeBytes);
    }
  }

  /** Commit goes on to record a row only for a staging file that hashes to the declared digest. */
  lemma CommitHashes(p: Settings, s: State, session: Session, io: Io)
    ensures var o := ExecuteCommit(p, s, session, io);
            && o.state.accepted == s.accepted
            && (StagingOf(o.state, session.id) == None || o.state == s)
            && (o.next == [Record(session)] ==>
                 && session.id in s.staging && p.sha256(s.staging[session.id]) == session.blobSha256
                 && StagingOf(o.state, session.id) == None)
  {
    hide IsSha256Hex;
  }

  lemma CleanupOnlyRemovesTheFile(p: Settings, s: State, action: Action, id: SessionId, io: Io)
    requires IsCleanup(action, id)
    ensures var o := Execute(p, s, action, io);
            && o.next == [] && o.state.accepted == s.accepted && o.state.blobs == s.blobs
            && o.state.staging == if action.DiscardStaging? then s.staging - {id} else s.staging
  {
    hide WithStatus, Released, ExecuteReserve, ExecuteWrite, ExecuteCheckRow, ExecuteCharge;
    hide ExecuteCommit, ExecuteRecord, ExecuteCollectRow, ExecuteReadSizes, ExecuteFinalize;
  }

  /** The calls without a lemma of their own leave the staging file alone or remove it. */
  lemma CleanupInOrder(p: Settings, s: State, action: Action, rest: seq<Action>, id: SessionId, io: Io)
    requires IsCleanup(action, id) && InOrder(p, ViewOf(s, id), [action] + rest)
    ensures InOrder(p, ViewOf(Execute(p, s, action, io).state, id), rest)
  {
    hide Joined, HonestSize, Execute;
    CleanupOnlyRemovesTheFile(p, s, action, id, io);
    var program := [action] + rest;
    assert program[0] == action;
    assert rest != [] ==> rest[0] == program[1];
  }

  lemma CheckAndChargeInOrder(p: Settings, s: State, action: Action, io: Io)
    requires action.CheckRow? || action.Charge? || action.Record?
    requires InOrder(p, ViewOf(s, action.session.id), [action])
    ensures var o := Execute(p, s, action, io);
            InOrder(p, ViewOf(o.state, action.session.id), o.next)
  {
    hide Joined, HonestSize, WithStatus, Released, ExecuteReserve, ExecuteWrite, ExecuteCheckRow, ExecuteCharge;
    hide ExecuteCommit, ExecuteRecord, ExecuteCollectRow, ExecuteReadSizes, ExecuteFinalize, WithoutStaging;
  }

  lemma ChunkCallInOrder(p: Settings, s: State, program: seq<Action>, id: SessionId, io: Io)
    requires AllTiled(s) && program != [] && InOrder(p, ViewOf(s, id), program)
    ensures var o := Execute(p, s, program[0], io);
            InOrder(p, ViewOf(o.state, id), o.next + program[1..])
  {
    hide InOrder, AllTiled, ExecuteReserve, ExecuteWrite, ExecuteCheckRow, ExecuteCharge, ExecuteCommit;
    hide ExecuteRecord, Released, WithStatus, WithoutStaging, ExecuteCollectRow, ExecuteReadSizes, ExecuteFinalize;
    var head, rest := program[0], program[1..];
    var o := Execute(p, s, head, io);
    assert program == [head] + rest;
    InOrderShapes(p, ViewOf(s, id), program);
    if IsCleanup(head, id) {
      CleanupInOrder(p, s, head, rest, id, io);
      assert o.next + rest == rest;
    } else {
      assert program == [head] && o.next + rest == o.next;
      match head
      case Reserve(_, offset, data) => ReserveInOrder(p, s, id, offset, data);
      case Write(session, at, bytes) => WriteInOrder(p, s, session, at, bytes, io);
      case Commit(session) => CommitInOrder(p, s, session, io);
      case _ => CheckAndChargeInOrder(p, s, head, io);
    }
  }

  lemma InOrderShapes(p: Settings, v: View, program: seq<Action>)
    requires program != [] && InOrder(p, v, program)
    ensures IsCleanup(program[0], v.id)
         || (|program| == 1
             && ((program[0].Reserve? && program[0].sessionId == v.id)
                 || ((program[0].Write? || program[0].CheckRow? || program[0].Charge? || program[0].Commit?
                      || program[0].Record?) && program[0].session.id == v.id)))
  {
    hide Joined, HonestSize;
  }

  /** A chunk request touches no other session. */
  lemma ChunkCallTouchesItsSession(p: Settings, s: State, program: seq<Action>, id: SessionId, other: SessionId, io: Io)
    requires program != [] && InOrder(p, ViewOf(s, id), program) && other != id
    ensures ViewOf(Execute(p, s, program[0], io).state, other) == ViewOf(s, other)
  {
    hide InOrder, Execute;
    var head := program[0];
    InOrderShapes(p, ViewOf(s, id), program);
    ExecuteFrame(p, s, head, io);
    if head.Reserve? || head.Write? || head.Commit? {
      ChunkWritesTouchTheirSession(p, s, head, id, other, io);
    } else if IsCleanup(head, id) {
      CleanupOnlyRemovesTheFile(p, s, head, id, io);
    }
  }

  lemma ChunkWritesTouchTheirSession(p: Settings, s: State, head: Action, id: SessionId, other: SessionId, io: Io)
    requires head.Reserve? || head.Write? || head.Commit?
    requires (if head.Reserve? then head.sessionId else head.session.id) == id != other
    ensures ViewOf(Execute(p, s, head, io).state, other) == ViewOf(s, other)
  {
    hide ExecuteReserve, ExecuteWrite, ExecuteCommit, ExecuteCheckRow, ExecuteCharge, ExecuteRecord, Released;
    hide WithStatus, WithoutStaging, ExecuteCollectRow, ExecuteReadSizes, ExecuteFinalize;
    var t := Execute(p, s, head, io).state;
    if head.Write? {
      assert t.staging - {id} == s.staging - {id};
      assert other in s.staging <==> other in s.staging - {id};
      assert other in t.staging <==> other in t.staging - {id};
    }
  }

  lemma RecordKeepsRowsHonest(p: Settings, s: State, session: Session)
    requires HonestRows(p, s) && HonestSize(p, session.blobSha256, session.declaredSizeBytes)
    ensures HonestRows(p, ExecuteRecord(s, session).state)
  {
    hide HonestSize;
  }

  /** Only an honest size reaches the blobs table. */
  lemma ChunkCallKeepsRowsHonest(p: Settings, s: State, program: seq<Action>, id: SessionId, io: Io)
    requires program != [] && InOrder(p, ViewOf(s, id), program) && HonestRows(p, s)
    ensures HonestRows(p, Execute(p, s, program[0], io).state)
  {
    hide HonestSize, HonestRows, Joined, FileAgrees, ExecuteReserve, ExecuteWrite, ExecuteCheckRow, ExecuteCharge;
    hide ExecuteCommit, ExecuteRecord, Released, WithStatus, WithoutStaging, ExecuteCollectRow, ExecuteReadSizes;
    hide ExecuteFinalize;
    if program[0].Record? {
      RecordKeepsRowsHonest(p, s, program[0].session);
    } else {
      ExecuteFrame(p, s, program[0], io);
      SameRowsStayHonest(p, s, Execute(p, s, program[0], io).state);
    }
  }

  lemma SameRowsStayHonest(p: Settings, s: State, t: State)
    requires HonestRows(p, s) && (forall h <- t.blobs :: h in s.blobs && t.blobs[h] == s.blobs[h])
    ensures HonestRows(p, t)
  {
    hide HonestSize;
  }

  // ---------------------------------------------------------------------------
  // The whole machine
  // ---------------------------------------------------------------------------

  predicate IsHousekeeping(action: Action) {
    || action.Release? || action.MarkAborted? || action.DiscardStaging? || action.DeleteSession?
    || action.CollectRow? || action.DiscardBlob? || action.ReadSizes? || action.Finalize?
  }

  predicate Busy(s: State, r: RequestId, id: SessionId) {
    r in s.requests && s.requests[r].origin == ChunkOf(id) && s.requests[r].program != []
  }

  ghost predicate OneWriter(s: State) {
    forall q, r, id :: Busy(s, q, id) && Busy(s, r, id) ==> q == r
  }

  /** What a chunk request knows about its session; a finished one claims nothing. */
  ghost predicate ChunkInOrder(p: Settings, s: State, id: SessionId, program: seq<Action>) {
    id in s.accepted && (program == [] || InOrder(p, ViewOf(s, id), program))
  }

  ghost predicate RequestInOrder(p: Settings, s: State, request: Request) {
    match request.origin
    case ChunkOf(id) => ChunkInOrder(p, s, id, request.program)
    case Housekeeping => forall action <- request.program :: IsHousekeeping(action)
  }

  ghost predicate RequestsInOrder(p: Settings, s: State) {
    forall r <- s.requests :: RequestInOrder(p, s, s.requests[r])
  }

  /** No request is at work on the session, so its file must be all of what it accepted. */
  ghost predicate IdleFilesComplete(s: State) {
    forall id <- s.staging :: (forall r :: !Busy(s, r, id)) ==> id in s.accepted && s.staging[id] == Joined(s.accepted[id])
  }

  ghost predicate SerialState(p: Settings, s: State) {
    && AllTiled(s) && OneWriter(s) && RequestsInOrder(p, s) && IdleFilesComplete(s) && HonestRows(p, s)
    && s.staging.Keys <= s.accepted.Keys
  }

  /** A request may die unless it is between reserving and writing, or has a staging file to discard. */
  predicate MayDie(program: seq<Action>) {
    !Discards(program) && forall k :: 0 <= k < |program| ==> !program[k].Write?
  }

  /** A chunk is only started when the session's last one is done, and no chunk request dies half-written. */
  ghost predicate SerialEvent(s: State, event: Event) {
    && (event.StartChunk? ==> forall r :: !Busy(s, r, event.sessionId))
    && (event.Crash? && event.request in s.requests && s.requests[event.request].origin.ChunkOf?
        ==> MayDie(s.requests[event.request].program))
  }

  ghost predicate SerialRun(p: Settings, s: State, events: seq<Event>)
    decreases |events|
  {
    events == [] || (SerialEvent(s, events[0]) && SerialRun(p, Apply(p, s, events[0]), events[1..]))
  }

  // ---------------------------------------------------------------------------
  // Steps and events keep the order
  // ---------------------------------------------------------------------------

  lemma HousekeepingCallFrame(p: Settings, s: State, action: Action, io: Io)
    requires IsHousekeeping(action)
    ensures var o := Execute(p, s, action, io);
            && o.state.accepted == s.accepted
            && (forall h <- o.state.blobs :: h in s.blobs && o.state.blobs[h] == s.blobs[h])
            && (forall id <- o.state.staging :: id in s.staging && o.state.staging[id] == s.staging[id])
            && (forall k :: 0 <= k < |o.next| ==> IsHousekeeping(o.next[k]))
  {
    hide Execute, ExecuteReadSizes, ExecuteCollectRow;
    ExecuteFrame(p, s, action, io);
    HousekeepingLeadsToHousekeeping(p, s, action, io);
    if action.CollectRow? {
      CollectionOnlyTakesRows(p, s, action, io);
    } else if action.DiscardStaging? {
      CleanupCallsExecuted(p, s, action, io);
    }
  }

  lemma HousekeepingLeadsToHousekeeping(p: Settings, s: State, action: Action, io: Io)
    requires IsHousekeeping(action)
    ensures forall next <- Execute(p, s, action, io).next :: IsHousekeeping(next)
  {
    hide WithStatus, WithoutStaging, Released, ExecuteReserve, ExecuteWrite, ExecuteCheckRow, ExecuteCharge, ExecuteCommit;
    hide ExecuteRecord, ExecuteCollectRow, ExecuteReadSizes, ExecuteFinalize;
  }

  lemma CollectionOnlyTakesRows(p: Settings, s: State, action: Action, io: Io)
    requires action.CollectRow?
    ensures forall h <- Execute(p, s, action, io).state.blobs ::
              h in s.blobs && Execute(p, s, action, io).state.blobs[h] == s.blobs[h]
  {
    hide Collectable, WithStatus, WithoutStaging, Released, ExecuteReserve, ExecuteWrite, ExecuteCheckRow, ExecuteCharge;
    hide ExecuteCommit, ExecuteRecord, ExecuteReadSizes, ExecuteFinalize;
  }

  /** A session whose file is unchanged or gone stays in order. */
  lemma LosingTheFileKeepsOrder(p: Settings, v: View, w: View, program: seq<Action>)
    requires InOrder(p, v, program) && w == v.(file := w.file) && (w.file == None || w.file == v.file)
    ensures InOrder(p, w, program)
  {
    hide Joined, HonestSize;
  }

  lemma HousekeepingStepKeepsOrder(p: Settings, s: State, r: RequestId, io: Io)
    requires SerialState(p, s) && r in s.requests && s.requests[r].program != [] && s.requests[r].origin.Housekeeping?
    ensures SerialState(p, Stepped(p, s, r, io))
  {
    hide Execute, InOrder, HonestRows, Joined, AllTiled;
    var t := Stepped(p, s, r, io);
    var head := s.requests[r].program[0];
    assert RequestInOrder(p, s, s.requests[r]);
    assert head in s.requests[r].program;
    HousekeepingCallFrame(p, s, head, io);
    ExecuteFrame(p, s, head, io);
    SameRowsStayHonest(p, s, t);
    assert forall q, id :: Busy(t, q, id) <==> Busy(s, q, id);
    forall q <- t.requests
      ensures RequestInOrder(p, t, t.requests[q])
    {
      assert RequestInOrder(p, s, s.requests[q]);
      if t.requests[q].origin.ChunkOf? && t.requests[q].program != [] {
        var id := t.requests[q].origin.sessionId;
        LosingTheFileKeepsOrder(p, ViewOf(s, id), ViewOf(t, id), s.requests[q].program);
      }
    }
    StepKeepsTiles(p, s, r, io);
  }

  lemma StepKeepsTiles(p: Settings, s: State, r: RequestId, io: Io)
    requires AllTiled(s) && r in s.requests && s.requests[r].program != []
    ensures AllTiled(Stepped(p, s, r, io))
  {
    hide AllTiled, Execute;
    ApplyKeepsTiles(p, s, Step(r, io));
    StepFrame(p, s, Step(r, io));
  }

  lemma ReserveKeepsLogs(p: Settings, s: State, id: SessionId, offset: int, data: Content, io: Io)
    requires id in s.accepted
    ensures Execute(p, s, Reserve(id, offset, data), io).state.accepted.Keys == s.accepted.Keys
  {
    hide ExecuteReserve;
  }

  lemma ChunkCallKeepsLogs(p: Settings, s: State, program: seq<Action>, id: SessionId, io: Io)
    requires program != [] && InOrder(p, ViewOf(s, id), program)
    requires id in s.accepted && s.staging.Keys <= s.accepted.Keys
    ensures var t := Execute(p, s, program[0], io).state;
            t.accepted.Keys == s.accepted.Keys && t.staging.Keys <= t.accepted.Keys
  {
    hide InOrder, Execute;
    InOrderShapes(p, ViewOf(s, id), program);
    var head := program[0];
    var t := Execute(p, s, head, io).state;
    ExecuteFrame(p, s, head, io);
    if head.Reserve? {
      ReserveKeepsLogs(p, s, id, head.offset, head.data, io);
    }
    forall other <- t.staging
      ensures other in t.accepted
    {
      if other != id {
        ChunkCallTouchesItsSession(p, s, program, id, other, io);
        assert StagingOf(t, other) == StagingOf(s, other);
      }
    }
  }

  lemma DoneFileIsComplete(p: Settings, v: View)
    requires InOrder(p, v, []) && v.file.Some?
    ensures v.file.value == Joined(v.log)
  {
    hide Joined;
  }

  lemma OneStepKeepsOneWriter(p: Settings, s: State, r: RequestId, io: Io)
    requires OneWriter(s) && r in s.requests && s.requests[r].program != []
    ensures OneWriter(Stepped(p, s, r, io))
  {
    hide Execute;
    assert forall q, id :: Busy(Stepped(p, s, r, io), q, id) ==> Busy(s, q, id);
  }

  lemma ChunkStepKeepsRequests(p: Settings, s: State, r: RequestId, io: Io)
    requires SerialState(p, s) && r in s.requests && s.requests[r].program != [] && s.requests[r].origin.ChunkOf?
    ensures RequestsInOrder(p, Stepped(p, s, r, io))
  {
    hide Execute, InOrder, HonestRows, AllTiled, IdleFilesComplete;
    var t := Stepped(p, s, r, io);
    var id, program := s.requests[r].origin.sessionId, s.requests[r].program;
    assert RequestInOrder(p, s, s.requests[r]);
    ChunkCallInOrder(p, s, program, id, io);
    ChunkCallKeepsLogs(p, s, program, id, io);
    assert Busy(s, r, id);
    forall q <- t.requests
      ensures RequestInOrder(p, t, t.requests[q])
    {
      if q == r {
        assert ViewOf(t, id) == ViewOf(Execute(p, s, program[0], io).state, id);
      } else {
        assert RequestInOrder(p, s, s.requests[q]);
        if t.requests[q].origin.ChunkOf? && t.requests[q].program != [] {
          var other := t.requests[q].origin.sessionId;
          assert Busy(s, q, other);
          ChunkCallTouchesItsSession(p, s, program, id, other, io);
          assert ViewOf(t, other) == ViewOf(s, other);
        }
      }
    }
  }

  lemma ChunkStepKeepsIdleFiles(p: Settings, s: State, r: RequestId, io: Io)
    requires SerialState(p, s) && r in s.requests && s.requests[r].program != [] && s.requests[r].origin.ChunkOf?
    ensures IdleFilesComplete(Stepped(p, s, r, io))
  {
    hide Execute, InOrder, HonestRows, AllTiled, Joined;
    var t := Stepped(p, s, r, io);
    var id, program := s.requests[r].origin.sessionId, s.requests[r].program;
    assert RequestInOrder(p, s, s.requests[r]);
    ChunkCallInOrder(p, s, program, id, io);
    ChunkCallKeepsLogs(p, s, program, id, io);
    forall other <- t.staging | forall q :: !Busy(t, q, other)
      ensures other in t.accepted && t.staging[other] == Joined(t.accepted[other])
    {
      if other == id {
        assert !Busy(t, r, id);
        assert ViewOf(t, id) == ViewOf(Execute(p, s, program[0], io).state, id);
        DoneFileIsComplete(p, ViewOf(t, id));
      } else {
        ChunkCallTouchesItsSession(p, s, program, id, other, io);
        assert ViewOf(t, other) == ViewOf(s, other);
        assert StagingOf(s, other) == StagingOf(t, other);
        assert forall q :: Busy(s, q, other) ==> q != r && Busy(t, q, other);
      }
    }
  }

  lemma ChunkStepKeepsOrder(p: Settings, s: State, r: RequestId, io: Io)
    requires SerialState(p, s) && r in s.requests && s.requests[r].program != [] && s.requests[r].origin.ChunkOf?
    ensures SerialState(p, Stepped(p, s, r, io))
  {
    hide Execute, InOrder, HonestRows, AllTiled, OneWriter, IdleFilesComplete;
    var t := Stepped(p, s, r, io);
    var id, program := s.requests[r].origin.sessionId, s.requests[r].program;
    assert RequestInOrder(p, s, s.requests[r]);
    StepKeepsTiles(p, s, r, io);
    OneStepKeepsOneWriter(p, s, r, io);
    ChunkStepKeepsRequests(p, s, r, io);
    ChunkStepKeepsIdleFiles(p, s, r, io);
    ChunkCallKeepsRowsHonest(p, s, program, id, io);
    SameRowsStayHonest(p, Execute(p, s, program[0], io).state, t);
    ChunkCallKeepsLogs(p, s, program, id, io);
  }

  /** What is known about a request depends on logs and staging files only. */
  lemma SameFilesSameOrder(p: Settings, s: State, t: State, request: Request)
    requires RequestInOrder(p, s, request) && t.staging == s.staging
    requires t.accepted == s.accepted
          || (request.origin.ChunkOf? ==> request.origin.sessionId in t.accepted
                                          && request.origin.sessionId in s.accepted
                                          && t.accepted[request.origin.sessionId] == s.accepted[request.origin.sessionId])
    ensures RequestInOrder(p, t, request)
  {
    hide InOrder;
  }

  lemma NewChunkInOrder(p: Settings, s: State, id: SessionId, offset: int, data: Content)
    requires SerialState(p, s) && id in s.sessions && forall r :: !Busy(s, r, id)
    ensures ChunkInOrder(p, s, id, [Reserve(id, offset, data)])
  {
    hide Joined, HonestRows, OneWriter, RequestsInOrder;
    assert SessionTiled(s, id);
  }

  lemma NewRequestInOrder(p: Settings, s: State, event: Event)
    requires SerialState(p, s) && SerialEvent(s, event) && StartsRequest(event)
    ensures var request := ProgramOf(p, s, event); request.Some? ==> RequestInOrder(p, s, request.value)
  {
    hide SerialState, MayFinalize, IsExpired, Referenced, Awaited, SweepProgram, CollectionProgram, ChunkInOrder, Trim;
    var request := ProgramOf(p, s, event);
    if request.Some? {
      if event.StartChunk? {
        NewChunkInOrder(p, s, event.sessionId, event.offset, event.data);
      } else {
        forall action <- request.value.program
          ensures IsHousekeeping(action)
        {
          match event
          case StartSweep(_, expired) => SweepOnlyDiscardsAndDeletes(expired, action);
          case StartCollection(_, listed) => CollectionOnlyCollects(s, listed, action);
          case _ =>
        }
      }
    }
  }

  lemma StartKeepsOrder(p: Settings, s: State, event: Event)
    requires SerialState(p, s) && SerialEvent(s, event) && StartsRequest(event)
    ensures SerialState(p, Apply(p, s, event))
  {
    hide Joined, HonestSize, RequestInOrder, ProgramOf, AllTiled, Stepped, Execute, Started;
    var t := Apply(p, s, event);
    var request := ProgramOf(p, s, event);
    assert t == Started(s, event.request, request);
    NewRequestInOrder(p, s, event);
    SameSessionsStayTiled(s, t);
    forall q <- t.requests
      ensures RequestInOrder(p, t, t.requests[q])
    {
      SameFilesSameOrder(p, s, t, t.requests[q]);
    }
    assert forall q, id :: Busy(s, q, id) ==> Busy(t, q, id);
    forall q, r, id | Busy(t, q, id) && Busy(t, r, id)
      ensures q == r
    {
      NewWriterIsAlone(p, s, event, id);
    }
  }

  /** A new request is at work on a session only if no other one is. */
  lemma NewWriterIsAlone(p: Settings, s: State, event: Event, id: SessionId)
    requires SerialEvent(s, event) && StartsRequest(event)
    ensures var t := Apply(p, s, event);
            (forall r :: Busy(t, r, id) ==> Busy(s, r, id)) || (forall r :: Busy(t, r, id) ==> r == event.request)
  {
    hide Trim, MayFinalize, IsExpired, Collectable, SweepProgram, CollectionProgram, Stepped, Execute;
    hide ChunkIsPlausible;
    var t := Apply(p, s, event);
    if event.StartChunk? && event.sessionId == id {
      forall r | Busy(t, r, id)
        ensures r == event.request
      {
        assert !Busy(s, r, id);
      }
    } else {
      assert forall r :: Busy(t, r, id) ==> Busy(s, r, id);
    }
  }

  lemma CrashKeepsOrder(p: Settings, s: State, event: Event)
    requires SerialState(p, s) && SerialEvent(s, event) && event.Crash? && event.request in s.requests
    ensures SerialState(p, Apply(p, s, event))
  {
    hide Apply, Joined, HonestRows, InOrder, AllTiled;
    var t := Apply(p, s, event);
    var r := event.request;
    OtherEventFrame(p, s, event);
    SameSessionsStayTiled(s, t);
    SameRowsStayHonest(p, s, t);
    assert forall q, id :: Busy(t, q, id) <==> Busy(s, q, id) && q != r;
    forall q <- t.requests
      ensures RequestInOrder(p, t, t.requests[q])
    {
      assert RequestInOrder(p, s, s.requests[q]);
      SameFilesSameOrder(p, s, t, t.requests[q]);
    }
    forall id <- t.staging | forall q :: !Busy(t, q, id)
      ensures t.staging[id] == Joined(t.accepted[id])
    {
      if Busy(s, r, id) {
        assert RequestInOrder(p, s, s.requests[r]);
        MayDieOnlyWhenComplete(p, ViewOf(s, id), s.requests[r].program);
      }
    }
  }

  lemma MayDieOnlyWhenComplete(p: Settings, v: View, program: seq<Action>)
    requires InOrder(p, v, program) && MayDie(program) && v.file.Some?
    ensures v.file.value == Joined(v.log)
  {
    hide Joined, Sound;
  }

  /** Events that start and end no request. */
  lemma OtherEventKeepsOrder(p: Settings, s: State, event: Event)
    requires SerialState(p, s) && !event.Step? && !event.Crash? && !StartsRequest(event)
    ensures SerialState(p, Apply(p, s, event))
  {
    hide Apply, HonestRows, InOrder, AllTiled;
    var t := Apply(p, s, event);
    OtherEventFrame(p, s, event);
    OtherEventKeepsTiles(p, s, event);
    SameRowsStayHonest(p, s, t);
    LogsAreKept(p, s, event);
    assert forall q, id :: Busy(t, q, id) <==> Busy(s, q, id);
    forall q <- t.requests
      ensures RequestInOrder(p, t, t.requests[q])
    {
      assert RequestInOrder(p, s, s.requests[q]);
      SameFilesSameOrder(p, s, t, t.requests[q]);
    }
  }

  lemma LogsAreKept(p: Settings, s: State, event: Event)
    requires !event.Step?
    ensures var t := Apply(p, s, event);
            forall id <- s.accepted :: id in t.accepted && t.accepted[id] == s.accepted[id]
  {
    hide Started, ProgramOf, WithBuild, WithFailedBuild, WithoutBuild, WithQuota, Crashed, Stepped, Execute;
    hide HasOpenSession, IsSha256Hex;
  }

  // ---------------------------------------------------------------------------
  // Whole runs
  // ---------------------------------------------------------------------------

  lemma SerialEventKeepsOrder(p: Settings, s: State, event: Event)
    requires SerialState(p, s) && SerialEvent(s, event)
    ensures SerialState(p, Apply(p, s, event))
  {
    hide Apply, SerialState, SerialEvent, Stepped;
    if event.Step? {
      StepFrame(p, s, event);
      if Apply(p, s, event) != s {
        if s.requests[event.request].origin.Housekeeping? {
          HousekeepingStepKeepsOrder(p, s, event.request, event.io);
        } else {
          ChunkStepKeepsOrder(p, s, event.request, event.io);
        }
      }
    } else if StartsRequest(event) {
      StartKeepsOrder(p, s, event);
    } else if event.Crash? {
      OtherEventFrame(p, s, event);
      if event.request in s.requests {
        CrashKeepsOrder(p, s, event);
      }
    } else {
      OtherEventKeepsOrder(p, s, event);
    }
  }

  lemma {:induction false} SerialRunsStayInOrder(p: Settings, s: State, events: seq<Event>)
    requires SerialState(p, s) && SerialRun(p, s, events)
    ensures SerialState(p, Run(p, s, events))
    decreases |events|
  {
    hide Apply, SerialState, SerialEvent;
    if events != [] {
      SerialEventKeepsOrder(p, s, events[0]);
      SerialRunsStayInOrder(p, Apply(p, s, events[0]), events[1..]);
    }
  }

  /**
   A commit that goes through records an honest size exactly when the staging file has the declared
   length. An empty last chunk can complete a session whose last write is still under way, and then
   it has not.
   */
  lemma CommitIsHonestIffFileHasDeclaredLength(p: Settings, s: State, session: Session, io: Io)
    requires Injective(p.sha256) && ExecuteCommit(p, s, session, io).next == [Record(session)]
    ensures session.id in s.staging
    ensures HonestSize(p, session.blobSha256, session.declaredSizeBytes)
       <==> |s.staging[session.id]| == session.declaredSizeBytes
  {
    hide Injective;
    CommitHashes(p, s, session, io);
    var content := s.staging[session.id];
    assert HonestSize(p, session.blobSha256, |content|);
    if HonestSize(p, session.blobSha256, session.declaredSizeBytes) {
      HonestSizesAgree(p, session.blobSha256, |content|, session.declaredSizeBytes);
    }
  }

  /** The rows are honest, and so are those about to be recorded. */
  ghost predicate HonestSoFar(p: Settings, s: State) {
    && HonestRows(p, s)
    && forall session :: Outstanding(s, Record(session)) ==>
         HonestSize(p, session.blobSha256, session.declaredSizeBytes)
  }

  /** If this event commits a staging file, the file has the declared length. */
  ghost predicate CommitsTheDeclaredLength(p: Settings, s: State, event: Event) {
    event.Step? && event.request in s.requests && s.requests[event.request].program != [] ==>
      match s.requests[event.request].program[0]
      case Commit(session) =>
        ExecuteCommit(p, s, session, event.io).next == [Record(session)] ==>
          session.id in s.staging && |s.staging[session.id]| == session.declaredSizeBytes
      case _ => true
  }

  lemma OnlyCommitsLeadToRecords(p: Settings, s: State, action: Action, io: Io, session: Session)
    requires Record(session) in Execute(p, s, action, io).next
    ensures action == Commit(session) && ExecuteCommit(p, s, session, io).next == [Record(session)]
  {
    hide ExecuteReserve, ExecuteWrite, ExecuteCheckRow, ExecuteCharge, ExecuteCommit, ExecuteRecord, Released;
    hide WithStatus, WithoutStaging, ExecuteCollectRow, ExecuteReadSizes, ExecuteFinalize;
  }

  lemma CallKeepsRowsHonest(p: Settings, s: State, action: Action, io: Io)
    requires HonestRows(p, s)
    requires action.Record? ==> HonestSize(p, action.session.blobSha256, action.session.declaredSizeBytes)
    ensures HonestRows(p, Execute(p, s, action, io).state)
  {
    hide ExecuteReserve, ExecuteWrite, ExecuteCheckRow, ExecuteCharge, ExecuteCommit, Released, HonestSize;
    hide WithStatus, WithoutStaging, ExecuteReadSizes, ExecuteFinalize, Collectable;
  }

  lemma StepStaysHonestIffCommitIs(p: Settings, s: State, r: RequestId, io: Io)
    requires Injective(p.sha256) && HonestSoFar(p, s) && r in s.requests && s.requests[r].program != []
    ensures HonestSoFar(p, Stepped(p, s, r, io)) <==> CommitsTheDeclaredLength(p, s, Step(r, io))
  {
    hide Execute, ExecuteCommit, HonestRows, HonestSize, Outstanding, Injective;
    var head, t := s.requests[r].program[0], Stepped(p, s, r, io);
    var after := Execute(p, s, head, io);
    HeadIsOutstanding(s, r);
    CallKeepsRowsHonest(p, s, head, io);
    SameRowsStayHonest(p, after.state, t);
    forall session | Outstanding(t, Record(session)) && !Outstanding(s, Record(session))
      ensures head == Commit(session) && ExecuteCommit(p, s, session, io).next == [Record(session)]
    {
      OutstandingAfterStep(p, s, r, io, Record(session));
      OnlyCommitsLeadToRecords(p, s, head, io, session);
    }
    if head.Commit? && ExecuteCommit(p, s, head.session, io).next == [Record(head.session)] {
      CommitIsHonestIffFileHasDeclaredLength(p, s, head.session, io);
      NextIsOutstanding(p, s, r, io, Record(head.session));
    }
  }

  lemma NextIsOutstanding(p: Settings, s: State, r: RequestId, io: Io, next: Action)
    requires r in s.requests && s.requests[r].program != []
    requires s.requests[r].program[0].Commit?
    requires ExecuteCommit(p, s, s.requests[r].program[0].session, io).next == [next]
    ensures Outstanding(Stepped(p, s, r, io), next)
  {
    hide ExecuteCommit;
    var t := Stepped(p, s, r, io);
    assert t.requests[r].program[0] == next;
    assert next in t.requests[r].program;
  }

  lemma EventStaysHonestIffCommitIs(p: Settings, s: State, event: Event)
    requires Injective(p.sha256) && HonestSoFar(p, s)
    ensures HonestSoFar(p, Apply(p, s, event)) <==> CommitsTheDeclaredLength(p, s, event)
  {
    hide Apply, HonestSize, Outstanding, Injective, Stepped, ExecuteCommit;
    if event.Step? {
      StepFrame(p, s, event);
      if event.request in s.requests && s.requests[event.request].program != [] {
        StepStaysHonestIffCommitIs(p, s, event.request, event.io);
      }
    } else {
      OtherEventFrame(p, s, event);
      forall session | Outstanding(Apply(p, s, event), Record(session))
        ensures Outstanding(s, Record(session))
      {
        if !Outstanding(s, Record(session)) {
          OutstandingAfterOther(p, s, event, Record(session));
          assert false;
        }
      }
    }
  }

  ghost predicate AlwaysHonest(p: Settings, s: State, events: seq<Event>)
    decreases |events|
  {
    HonestSoFar(p, s) && (events == [] || AlwaysHonest(p, Apply(p, s, events[0]), events[1..]))
  }

  ghost predicate LengthsAlwaysDeclared(p: Settings, s: State, events: seq<Event>)
    decreases |events|
  {
    events == []
    || (CommitsTheDeclaredLength(p, s, events[0]) && LengthsAlwaysDeclared(p, Apply(p, s, events[0]), events[1..]))
  }

  /** Sizes are honest throughout a run exactly when no file of another length is ever committed. */
  lemma {:induction false} HonestThroughoutIffLengthsAreDeclared(p: Settings, s: State, events: seq<Event>)
    requires Injective(p.sha256) && HonestSoFar(p, s)
    ensures AlwaysHonest(p, s, events) <==> LengthsAlwaysDeclared(p, s, events)
    decreases |events|
  {
    hide Apply, HonestSoFar, CommitsTheDeclaredLength, Injective;
    if events != [] {
      EventStaysHonestIffCommitIs(p, s, events[0]);
      if HonestSoFar(p, Apply(p, s, events[0])) {
        HonestThroughoutIffLengthsAreDeclared(p, Apply(p, s, events[0]), events[1..]);
      } else {
        assert !AlwaysHonest(p, Apply(p, s, events[0]), events[1..]);
      }
    }
  }

  /**
   The two guarantees of a serial run: a session nobody is writing to has staged exactly the bytes
   it accepted, and a recorded size is the length of whatever content is stored under its digest.
   */
  lemma SerialUploadsStageAndRecordFaithfully(p: Settings, s: State, events: seq<Event>)
    requires Initial(s) && SerialRun(p, s, events)
    ensures var t := Run(p, s, events);
            && (forall id <- t.staging :: (forall r :: !Busy(t, r, id)) ==>
                 id in t.accepted && t.staging[id] == Joined(t.accepted[id]))
            && (Injective(p.sha256) ==>
                 forall h :: h in t.blobs && h in t.stored ==> t.blobs[h].sizeBytes == |t.stored[h]|)
  {
    hide Joined;
    SerialRunsStayInOrder(p, s, events);
    ContentStaysAddressedByItsHash(p, s, events);
    var t := Run(p, s, events);
    if Injective(p.sha256) {
      forall h | h in t.blobs && h in t.stored
        ensures t.blobs[h].sizeBytes == |t.stored[h]|
      {
        assert HonestSize(p, h, |t.stored[h]|);
        HonestSizesAgree(p, h, t.blobs[h].sizeBytes, |t.stored[h]|);
      }
    }
  }
}
