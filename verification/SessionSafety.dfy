/**
 Whose upload sessions are, and when they take and lose anything, under any interleaving: one open
 session for a content of a build, chunks from its owner only, and no end before its time.
 */
module SessionSafety {
  import opened Manifest
  import opened StagingFile
  import opened Protocol
  import opened Frames
  import opened UploadSafety

  // ---------------------------------------------------------------------------
  // One open session
  // ---------------------------------------------------------------------------

  /** The partial unique index of `upload_sessions`. */
  ghost predicate OneOpenPerContent(sessions: map<SessionId, Session>) {
    forall a, b :: a in sessions && b in sessions
                   && sessions[a].status == Pending && sessions[b].status == Pending
                   && sessions[a].buildId == sessions[b].buildId && sessions[a].blobSha256 == sessions[b].blobSha256 ==>
      a == b
  }

  /** Whose it is and what for never changes, and a session that ended stays ended. */
  ghost predicate NothingReopens(before: map<SessionId, Session>, after: map<SessionId, Session>) {
    forall id <- after ::
      && id in before
      && after[id] == before[id].(status := after[id].status, receivedBytes := after[id].receivedBytes)
      && (after[id].status == Pending ==> before[id].status == Pending)
  }

  lemma ReservingReopensNothing(s: State, id: SessionId, offset: int, data: Content)
    ensures NothingReopens(s.sessions, ExecuteReserve(s, id, offset, data).state.sessions)
  {
  }

  lemma MarkingReopensNothing(s: State, id: SessionId, status: SessionStatus)
    requires status != Pending
    ensures NothingReopens(s.sessions, WithStatus(s, id, status).sessions)
  {
    MarkedSessions(s, id, status);
    hide WithStatus;
  }

  lemma MarkedSessions(s: State, id: SessionId, status: SessionStatus)
    ensures var after := WithStatus(s, id, status).sessions;
            || after == s.sessions
            || (&& id in s.sessions && s.sessions[id].status == Pending
                && after == s.sessions[id := s.sessions[id].(status := status)])
  {
  }

  lemma ExecuteReopensNothing(p: Settings, s: State, action: Action, io: Io)
    ensures NothingReopens(s.sessions, Execute(p, s, action, io).state.sessions)
  {
    hide Execute, ExecuteReserve, WithStatus;
    match action
    case Reserve(id, offset, data) =>
      UploadCallsExecuted(p, s, action, io);
      ReservingReopensNothing(s, id, offset, data);
    case MarkCompleted(id) =>
      CleanupCallsExecuted(p, s, action, io);
      MarkingReopensNothing(s, id, Completed);
    case MarkAborted(id) =>
      CleanupCallsExecuted(p, s, action, io);
      MarkingReopensNothing(s, id, Aborted);
    case DeleteSession(id) => CleanupCallsExecuted(p, s, action, io);
    case _ => ExecuteFrame(p, s, action, io);
  }

  lemma BeginningOpensOne(p: Settings, s: State, event: Event)
    requires event.BeginUpload?
    ensures var t, id := Apply(p, s, event).sessions, event.sessionId;
            || t == s.sessions
            || (&& id !in s.sessions && id !in s.accepted && id in t && t == s.sessions[id := t[id]]
                && t[id].buildId == event.buildId && t[id].blobSha256 == event.sha256
                && !HasOpenSession(s, event.buildId, event.sha256))
  {
    hide ProgramOf, Crashed, Stepped, Execute, HasOpenSession;
  }

  lemma BuildTakesItsSessions(p: Settings, s: State, build: BuildId)
    ensures Apply(p, s, RemoveBuild(build)).sessions
         == map id | id in s.sessions && s.sessions[id].buildId != build :: s.sessions[id]
  {
    hide ProgramOf, Crashed, Stepped, Execute, BegunUpload;
  }

  /** What any event does to sessions that were there, and whether it may add one. */
  lemma EventReopensNothing(p: Settings, s: State, event: Event)
    requires !event.BeginUpload?
    ensures NothingReopens(s.sessions, Apply(p, s, event).sessions)
  {
    hide Apply, Execute;
    if event.Step? {
      StepFrame(p, s, event);
      if Apply(p, s, event) != s {
        ExecuteReopensNothing(p, s, s.requests[event.request].program[0], event.io);
      }
    } else if event.RemoveBuild? {
      BuildTakesItsSessions(p, s, event.buildId);
    } else {
      OtherEventTables(p, s, event);
    }
  }

  lemma EventKeepsOneOpen(p: Settings, s: State, event: Event)
    requires OneOpenPerContent(s.sessions)
    ensures OneOpenPerContent(Apply(p, s, event).sessions)
  {
    hide Apply;
    if event.BeginUpload? {
      BeginningOpensOne(p, s, event);
    } else {
      EventReopensNothing(p, s, event);
    }
  }

  /** At all times a content of a build has at most one session in flight. */
  lemma {:induction false} AtMostOneOpenSession(p: Settings, s: State, events: seq<Event>)
    requires OneOpenPerContent(s.sessions)
    ensures OneOpenPerContent(Run(p, s, events).sessions)
    decreases |events|
  {
    hide Apply, OneOpenPerContent;
    if events != [] {
      EventKeepsOneOpen(p, s, events[0]);
      AtMostOneOpenSession(p, Apply(p, s, events[0]), events[1..]);
    }
  }

  // ---------------------------------------------------------------------------
  // Chunks of the owner
  // ---------------------------------------------------------------------------

  /** Among what happened, this user sent these bytes for this range of the session, in a chunk of allowed size. */
  ghost predicate Sent(p: Settings, past: seq<Event>, user: UserId, id: SessionId, offset: int, data: Content) {
    |data| <= p.maxChunkBytes
    && exists event <- past ::
         event.StartChunk? && event.userId == user && event.sessionId == id && event.offset == offset && event.data == data
  }

  ghost predicate AcceptedFromOwner(p: Settings, s: State, past: seq<Event>, id: SessionId)
    requires id in s.sessions && id in s.accepted
  {
    forall chunk <- s.accepted[id] :: Sent(p, past, s.sessions[id].userId, id, chunk.offset, chunk.data)
  }

  ghost predicate ReservesForOwner(p: Settings, s: State, past: seq<Event>, action: Action)
    requires action.Reserve?
  {
    && action.sessionId in s.accepted
    && (action.sessionId in s.sessions ==>
         Sent(p, past, s.sessions[action.sessionId].userId, action.sessionId, action.offset, action.data))
  }

  ghost predicate OwnersOnly(p: Settings, s: State, past: seq<Event>) {
    && (forall id <- s.sessions :: id in s.accepted && AcceptedFromOwner(p, s, past, id))
    && (forall action: Action :: action.Reserve? && Outstanding(s, action) ==> ReservesForOwner(p, s, past, action))
  }

  lemma ReservesAreSent(p: Settings, s: State, event: Event, action: Action)
    requires !event.Step? && action.Reserve? && Outstanding(Apply(p, s, event), action) && !Outstanding(s, action)
    ensures event.StartChunk? && action == Reserve(event.sessionId, event.offset, event.data)
    ensures ChunkIsPlausible(p, s, event.userId, event.sessionId, event.offset, event.data)
  {
    hide Apply;
    OutstandingAfterOther(p, s, event, action);
    if !ChunkIsPlausible(p, s, event.userId, event.sessionId, event.offset, event.data) {
      RefusedChunksStartNothing(p, s, event);
    }
  }

  lemma RefusedChunksStartNothing(p: Settings, s: State, event: Event)
    requires event.StartChunk? && !ChunkIsPlausible(p, s, event.userId, event.sessionId, event.offset, event.data)
    ensures Apply(p, s, event) == s
  {
    hide ChunkIsPlausible;
  }

  lemma NothingLeadsToReserveOrDelete(p: Settings, s: State, action: Action, io: Io, next: Action)
    requires next in Execute(p, s, action, io).next
    ensures !next.Reserve? && !next.DeleteSession?
  {
    hide IsSha256Hex, Referenced, Awaited, CanonicalText, AllRecorded, WithStoredSizes, StagingFile.WriteAt;
  }

  lemma ReserveFrame(p: Settings, s: State, action: Action, io: Io)
    requires action.Reserve?
    ensures var t, id := Execute(p, s, action, io).state, action.sessionId;
            && t.sessions.Keys == s.sessions.Keys
            && (t.accepted == s.accepted
                || (id in s.sessions && id in t.accepted && t.accepted == s.accepted[id := t.accepted[id]]
                    && t.accepted[id] == (if id in s.accepted then s.accepted[id] else [])
                                         + [Chunk(action.offset, action.data)]))
  {
    hide Execute;
    UploadCallsExecuted(p, s, action, io);
  }

  lemma StepKeepsAcceptedFromOwner(p: Settings, s: State, r: RequestId, io: Io, past: seq<Event>, id: SessionId)
    requires r in s.requests && s.requests[r].program != [] && OwnersOnly(p, s, past)
    requires id in Stepped(p, s, r, io).sessions
    ensures id in s.sessions && id in Stepped(p, s, r, io).accepted
    ensures AcceptedFromOwner(p, Stepped(p, s, r, io), past, id)
  {
    hide Execute, Stepped;
    var action := s.requests[r].program[0];
    SteppedTables(p, s, r, io);
    ExecuteReopensNothing(p, s, action, io);
    ExecuteFrame(p, s, action, io);
    assert AcceptedFromOwner(p, s, past, id);
    if action.Reserve? {
      HeadIsOutstanding(s, r);
      ReserveFrame(p, s, action, io);
    }
  }

  lemma SteppedTables(p: Settings, s: State, r: RequestId, io: Io)
    requires r in s.requests && s.requests[r].program != []
    ensures var t, u := Stepped(p, s, r, io), Execute(p, s, s.requests[r].program[0], io).state;
            t.sessions == u.sessions && t.accepted == u.accepted && t.now == u.now
  {
    hide Execute;
  }

  lemma StepKeepsOwnersOnly(p: Settings, s: State, r: RequestId, io: Io, past: seq<Event>)
    requires r in s.requests && s.requests[r].program != [] && OwnersOnly(p, s, past)
    ensures OwnersOnly(p, Stepped(p, s, r, io), past)
  {
    hide Execute, Stepped, AcceptedFromOwner, Sent, Outstanding;
    var t, head := Stepped(p, s, r, io), s.requests[r].program[0];
    forall id <- t.sessions
      ensures id in t.accepted && AcceptedFromOwner(p, t, past, id)
    {
      StepKeepsAcceptedFromOwner(p, s, r, io, past, id);
    }
    forall action: Action | action.Reserve? && Outstanding(t, action)
      ensures ReservesForOwner(p, t, past, action)
    {
      OutstandingAfterStep(p, s, r, io, action);
      if !Outstanding(s, action) {
        NothingLeadsToReserveOrDelete(p, s, head, io, action);
      }
      SteppedTables(p, s, r, io);
      ExecuteReopensNothing(p, s, head, io);
      ExecuteFrame(p, s, head, io);
      if head.Reserve? {
        ReserveFrame(p, s, head, io);
      }
    }
  }

  lemma SentLater(p: Settings, past: seq<Event>, event: Event, user: UserId, id: SessionId, offset: int, data: Content)
    ensures Sent(p, past, user, id, offset, data) ==> Sent(p, past + [event], user, id, offset, data)
    ensures |data| <= p.maxChunkBytes && event.StartChunk? && event.userId == user && event.sessionId == id
            && event.offset == offset && event.data == data ==>
              Sent(p, past + [event], user, id, offset, data)
  {
    if Sent(p, past, user, id, offset, data) {
      var sent :| sent in past && sent.StartChunk? && sent.userId == user && sent.sessionId == id
                  && sent.offset == offset && sent.data == data;
      assert sent in past + [event];
    }
    assert event in past + [event];
  }

  lemma OwnersOnlyLater(p: Settings, s: State, past: seq<Event>, event: Event)
    requires OwnersOnly(p, s, past)
    ensures OwnersOnly(p, s, past + [event])
  {
    hide Sent, Outstanding;
    forall id <- s.sessions
      ensures AcceptedFromOwner(p, s, past + [event], id)
    {
      assert AcceptedFromOwner(p, s, past, id);
      forall chunk <- s.accepted[id]
        ensures Sent(p, past + [event], s.sessions[id].userId, id, chunk.offset, chunk.data)
      {
        SentLater(p, past, event, s.sessions[id].userId, id, chunk.offset, chunk.data);
      }
    }
    forall action: Action | action.Reserve? && Outstanding(s, action)
      ensures ReservesForOwner(p, s, past + [event], action)
    {
      assert ReservesForOwner(p, s, past, action);
      if action.sessionId in s.sessions {
        SentLater(p, past, event, s.sessions[action.sessionId].userId, action.sessionId, action.offset, action.data);
      }
    }
  }

  /** A session that is there after an event was there before with the same owner and ranges, or has just begun. */
  lemma OtherEventSessions(p: Settings, s: State, event: Event, id: SessionId)
    requires !event.Step? && id in Apply(p, s, event).sessions
    ensures var t := Apply(p, s, event);
            || (&& id in s.sessions && t.sessions[id].userId == s.sessions[id].userId
                && (id in s.accepted ==> id in t.accepted && t.accepted[id] == s.accepted[id]))
            || (id !in s.sessions && id !in s.accepted && id in t.accepted && t.accepted[id] == [])
  {
    hide ProgramOf, Crashed, Stepped, Execute, HasOpenSession;
  }

  lemma OtherEventKeepsAccepted(p: Settings, s: State, event: Event)
    requires !event.Step?
    ensures s.accepted.Keys <= Apply(p, s, event).accepted.Keys
  {
    hide ProgramOf, Crashed, Stepped, Execute, HasOpenSession;
  }

  lemma OtherEventKeepsOwnersOnly(p: Settings, s: State, event: Event, past: seq<Event>)
    requires !event.Step? && OwnersOnly(p, s, past)
    ensures OwnersOnly(p, Apply(p, s, event), past + [event])
  {
    hide Apply, Sent, Outstanding;
    var t, later := Apply(p, s, event), past + [event];
    OwnersOnlyLater(p, s, past, event);
    OtherEventKeepsAccepted(p, s, event);
    forall id <- t.sessions
      ensures id in t.accepted && AcceptedFromOwner(p, t, later, id)
    {
      OtherEventSessions(p, s, event, id);
      if id in s.sessions {
        assert AcceptedFromOwner(p, s, later, id);
      }
    }
    forall action: Action | action.Reserve? && Outstanding(t, action)
      ensures ReservesForOwner(p, t, later, action)
    {
      if Outstanding(s, action) {
        assert ReservesForOwner(p, s, later, action);
      } else {
        ReservesAreSent(p, s, event, action);
        SentLater(p, past, event, event.userId, event.sessionId, event.offset, event.data);
      }
      if action.sessionId in t.sessions {
        OtherEventSessions(p, s, event, action.sessionId);
      }
    }
  }

  /** Every range a session accepted was sent by the user the session belongs to. */
  lemma {:induction false} ChunksComeFromTheOwner(p: Settings, s: State, past: seq<Event>, events: seq<Event>)
    requires OwnersOnly(p, s, past)
    ensures OwnersOnly(p, Run(p, s, events), past + events)
    decreases |events|
  {
    hide Apply, OwnersOnly, Stepped;
    if events == [] {
      assert past + [] == past;
    } else {
      if events[0].Step? {
        StepFrame(p, s, events[0]);
        if Apply(p, s, events[0]) != s {
          StepKeepsOwnersOnly(p, s, events[0].request, events[0].io, past);
        }
        OwnersOnlyLater(p, Apply(p, s, events[0]), past, events[0]);
      } else {
        OtherEventKeepsOwnersOnly(p, s, events[0], past);
      }
      ChunksComeFromTheOwner(p, Apply(p, s, events[0]), past + [events[0]], events[1..]);
      assert (past + [events[0]]) + events[1..] == past + events;
    }
  }

  lemma ChunksComeFromTheOwnerFromTheStart(p: Settings, s: State, events: seq<Event>, id: SessionId, k: nat)
    requires Initial(s)
    requires var t := Run(p, s, events); id in t.sessions && id in t.accepted && k < |t.accepted[id]|
    ensures var t := Run(p, s, events);
            Sent(p, events, t.sessions[id].userId, id, t.accepted[id][k].offset, t.accepted[id][k].data)
  {
    hide Run, Sent;
    NothingIsOutstandingAtTheStart(p, s);
    ChunksComeFromTheOwner(p, s, [], events);
    var t := Run(p, s, events);
    assert [] + events == events;
    assert AcceptedFromOwner(p, t, events, id);
    assert t.accepted[id][k] in t.accepted[id];
  }

  /** The session was open and in time, and took one more range where the others ended, not past its size. */
  ghost predicate TakesRange(s: State, t: State, id: SessionId)
    requires id in s.sessions && id in s.accepted && id in t.accepted
  {
    && s.sessions[id].status == Pending && s.now < s.sessions[id].expiresAt
    && id in t.sessions && t.sessions[id].receivedBytes <= s.sessions[id].declaredSizeBytes
    && exists data :: t.accepted[id] == s.accepted[id] + [Chunk(s.sessions[id].receivedBytes, data)]
                      && t.sessions[id].receivedBytes == s.sessions[id].receivedBytes + |data|
  }

  lemma ReservingTakesARange(s: State, id: SessionId, offset: int, data: Content, other: SessionId)
    requires other in s.sessions && other in s.accepted
    ensures var t := ExecuteReserve(s, id, offset, data).state;
            other in t.accepted && (t.accepted[other] != s.accepted[other] ==> TakesRange(s, t, other))
  {
  }

  lemma RangeTakenBetween(s: State, t: State, u: State, id: SessionId)
    requires id in s.sessions && id in s.accepted && id in t.accepted && TakesRange(s, t, id)
    requires u.sessions == t.sessions && u.accepted == t.accepted
    ensures TakesRange(s, u, id)
  {
  }

  /** A session takes a range only while it is open and in time, and never more than it declared. */
  lemma OnlyOpenSessionsAccept(p: Settings, s: State, event: Event, id: SessionId)
    requires id in s.sessions && id in s.accepted
    requires var t := Apply(p, s, event); id in t.accepted && t.accepted[id] != s.accepted[id]
    ensures TakesRange(s, Apply(p, s, event), id)
  {
    hide Apply, Execute, Stepped, ExecuteReserve, TakesRange;
    if event.Step? {
      StepFrame(p, s, event);
      var r, head := event.request, s.requests[event.request].program[0];
      SteppedTables(p, s, r, event.io);
      ExecuteFrame(p, s, head, event.io);
      if head.Reserve? {
        UploadCallsExecuted(p, s, head, event.io);
        ReservingTakesARange(s, head.sessionId, head.offset, head.data, id);
        RangeTakenBetween(s, Execute(p, s, head, event.io).state, Apply(p, s, event), id);
      }
    } else if event.BeginUpload? {
      BeginningAcceptsNothing(p, s, event, id);
    } else {
      OtherEventTables(p, s, event);
    }
  }

  lemma BeginningAcceptsNothing(p: Settings, s: State, event: Event, id: SessionId)
    requires event.BeginUpload? && id in s.accepted
    ensures var t := Apply(p, s, event); id in t.accepted && t.accepted[id] == s.accepted[id]
  {
    hide ProgramOf, Crashed, Stepped, Execute, HasOpenSession;
  }

  // ---------------------------------------------------------------------------
  // No end before its time
  // ---------------------------------------------------------------------------

  ghost predicate DeletesExpired(s: State, action: Action)
    requires action.DeleteSession?
  {
    && action.sessionId in s.accepted
    && (action.sessionId in s.sessions ==> s.sessions[action.sessionId].expiresAt <= s.now)
  }

  /** Every session still to be deleted has expired. */
  ghost predicate EndsInTime(s: State) {
    && s.sessions.Keys <= s.accepted.Keys
    && forall action: Action :: action.DeleteSession? && Outstanding(s, action) ==> DeletesExpired(s, action)
  }

  lemma {:induction false} SweptSessionsAreListed(expired: seq<SessionId>, action: Action)
    requires action.DeleteSession? && action in SweepProgram(expired)
    ensures action.sessionId in expired
  {
    if action !in [DiscardStaging(expired[0]), DeleteSession(expired[0])] {
      SweptSessionsAreListed(expired[1..], action);
    }
  }

  lemma DeletesAreOfExpired(p: Settings, s: State, event: Event, action: Action)
    requires !event.Step? && action.DeleteSession? && Outstanding(Apply(p, s, event), action) && !Outstanding(s, action)
    ensures IsExpired(s, action.sessionId) && event.StartSweep?
  {
    hide Apply, IsExpired;
    OutstandingAfterOther(p, s, event, action);
    if event.StartSweep? {
      SweepsStartOnExpired(p, s, event, action);
    }
  }

  lemma SweepsStartOnExpired(p: Settings, s: State, event: Event, action: Action)
    requires event.StartSweep? && action.DeleteSession?
    requires Outstanding(Apply(p, s, event), action) && !Outstanding(s, action)
    ensures IsExpired(s, action.sessionId)
  {
    hide IsExpired, SweepProgram;
    var t := Apply(p, s, event);
    var r :| r in t.requests && action in t.requests[r].program;
    if action in SweepProgram(event.expired) {
      SweptSessionsAreListed(event.expired, action);
    }
  }

  lemma StepKeepsEndsInTime(p: Settings, s: State, r: RequestId, io: Io)
    requires r in s.requests && s.requests[r].program != [] && EndsInTime(s)
    ensures EndsInTime(Stepped(p, s, r, io))
  {
    hide Execute, Stepped, Outstanding;
    var t, head := Stepped(p, s, r, io), s.requests[r].program[0];
    SteppedTables(p, s, r, io);
    ExecuteReopensNothing(p, s, head, io);
    ExecuteFrame(p, s, head, io);
    if head.Reserve? {
      ReserveFrame(p, s, head, io);
    }
    forall action: Action | action.DeleteSession? && Outstanding(t, action)
      ensures DeletesExpired(t, action)
    {
      OutstandingAfterStep(p, s, r, io, action);
      if !Outstanding(s, action) {
        NothingLeadsToReserveOrDelete(p, s, head, io, action);
      }
    }
  }

  /** What is there after an event kept its time, or is new; time goes forward. */
  lemma OtherEventTimes(p: Settings, s: State, event: Event)
    requires !event.Step? && s.sessions.Keys <= s.accepted.Keys
    ensures var t := Apply(p, s, event);
            && t.now >= s.now && t.sessions.Keys <= t.accepted.Keys && s.accepted.Keys <= t.accepted.Keys
            && (forall id <- t.sessions ::
                 (id in s.sessions && t.sessions[id].expiresAt == s.sessions[id].expiresAt) || id !in s.accepted)
  {
    hide ProgramOf, Crashed, Stepped, Execute, HasOpenSession;
  }

  lemma OtherEventKeepsEndsInTime(p: Settings, s: State, event: Event)
    requires !event.Step? && EndsInTime(s)
    ensures EndsInTime(Apply(p, s, event))
  {
    hide Apply, Outstanding;
    var t := Apply(p, s, event);
    OtherEventTimes(p, s, event);
    forall action: Action | action.DeleteSession? && Outstanding(t, action)
      ensures DeletesExpired(t, action)
    {
      if !Outstanding(s, action) {
        DeletesAreOfExpired(p, s, event, action);
      }
    }
  }

  lemma {:induction false} DeletionsWaitForTheEnd(p: Settings, s: State, events: seq<Event>)
    requires EndsInTime(s)
    ensures EndsInTime(Run(p, s, events))
    decreases |events|
  {
    hide Apply, EndsInTime, Stepped;
    if events != [] {
      if events[0].Step? {
        StepFrame(p, s, events[0]);
        if Apply(p, s, events[0]) != s {
          StepKeepsEndsInTime(p, s, events[0].request, events[0].io);
        }
      } else {
        OtherEventKeepsEndsInTime(p, s, events[0]);
      }
      DeletionsWaitForTheEnd(p, Apply(p, s, events[0]), events[1..]);
    }
  }

  lemma NothingIsOutstandingAtTheStart(p: Settings, s: State)
    requires Initial(s)
    ensures EndsInTime(s) && OwnersOnly(p, s, []) && OneOpenPerContent(s.sessions)
  {
  }

  /** A session disappears only once it has expired, or with its build. */
  lemma SessionsLeaveOnlyInTimeOrWithTheirBuild(p: Settings, s: State, events: seq<Event>, event: Event, id: SessionId)
    requires Initial(s)
    requires var t := Run(p, s, events); id in t.sessions && id !in Apply(p, t, event).sessions
    ensures var t := Run(p, s, events);
            t.sessions[id].expiresAt <= t.now || event == RemoveBuild(t.sessions[id].buildId)
  {
    hide Run, Apply, Execute, Stepped, Outstanding;
    NothingIsOutstandingAtTheStart(p, s);
    DeletionsWaitForTheEnd(p, s, events);
    var t := Run(p, s, events);
    if event.Step? {
      StepFrame(p, t, event);
      var r, head := event.request, t.requests[event.request].program[0];
      SteppedTables(p, t, r, event.io);
      HeadIsOutstanding(t, r);
      OnlyDeletingTakesSessions(p, t, head, event.io);
    } else if event.RemoveBuild? {
      BuildTakesItsSessions(p, t, event.buildId);
    } else if event.BeginUpload? {
      BeginningOpensOne(p, t, event);
    } else {
      OtherEventTables(p, t, event);
    }
  }

  lemma OnlyDeletingTakesSessions(p: Settings, s: State, action: Action, io: Io)
    ensures var t := Execute(p, s, action, io).state;
            forall id <- s.sessions :: id in t.sessions || action == DeleteSession(id)
  {
    hide Execute, ExecuteReserve, WithStatus;
    match action
    case Reserve(_, _, _) => ReserveFrame(p, s, action, io);
    case MarkCompleted(id) =>
      CleanupCallsExecuted(p, s, action, io);
      MarkedSessions(s, id, Completed);
    case MarkAborted(id) =>
      CleanupCallsExecuted(p, s, action, io);
      MarkedSessions(s, id, Aborted);
    case DeleteSession(id) => CleanupCallsExecuted(p, s, action, io);
    case _ => ExecuteFrame(p, s, action, io);
  }
}
