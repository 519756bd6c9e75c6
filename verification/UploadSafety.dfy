/**
 What uploads can do to storage, under any interleaving: a file at a content address hashes to its
 name, and the ranges a session accepted tile its first `receivedBytes`.
 */
module UploadSafety {
  import opened Manifest
  import opened StagingFile
  import opened Protocol
  import opened Frames

  // ---------------------------------------------------------------------------
  // Content addressing
  // ---------------------------------------------------------------------------

  ghost predicate ContentAddressed(p: Settings, s: State) {
    forall h <- s.stored :: p.sha256(s.stored[h]) == h
  }

  lemma CommitKeepsContentAddressed(p: Settings, s: State, session: Session, io: Io)
    requires ContentAddressed(p, s)
    ensures ContentAddressed(p, ExecuteCommit(p, s, session, io).state)
  {
    hide IsSha256Hex;
  }

  lemma ExecuteKeepsContentAddressed(p: Settings, s: State, action: Action, io: Io)
    requires ContentAddressed(p, s)
    ensures ContentAddressed(p, Execute(p, s, action, io).state)
  {
    hide ExecuteReserve, ExecuteWrite, ExecuteCheckRow, ExecuteCharge, ExecuteCommit, ExecuteRecord, Released;
    hide WithStatus, WithoutStaging, ExecuteCollectRow, ExecuteReadSizes, ExecuteFinalize;
    ExecuteFrame(p, s, action, io);
    if action.Commit? {
      CommitKeepsContentAddressed(p, s, action.session, io);
    }
  }

  lemma {:induction false} ContentStaysAddressedByItsHash(p: Settings, s: State, events: seq<Event>)
    requires ContentAddressed(p, s)
    ensures ContentAddressed(p, Run(p, s, events))
    decreases |events|
  {
    hide Apply, Execute;
    if events != [] {
      var event := events[0];
      if event.Step? {
        StepFrame(p, s, event);
        if Apply(p, s, event) != s {
          ExecuteKeepsContentAddressed(p, s, s.requests[event.request].program[0], event.io);
        }
      } else {
        OtherEventFrame(p, s, event);
      }
      ContentStaysAddressedByItsHash(p, Apply(p, s, event), events[1..]);
    }
  }

  // ---------------------------------------------------------------------------
  // Accepted ranges
  // ---------------------------------------------------------------------------

  ghost function Joined(chunks: seq<Chunk>): Content {
    if chunks == [] then "" else Joined(chunks[..|chunks| - 1]) + chunks[|chunks| - 1].data
  }

  /** Every range starts where the ranges before it end. */
  ghost predicate Tiled(chunks: seq<Chunk>) {
    forall k :: 0 <= k < |chunks| ==> chunks[k].offset == |Joined(chunks[..k])|
  }

  ghost predicate SessionTiled(s: State, id: SessionId)
    requires id in s.sessions
  {
    && s.sessions[id].id == id
    && id in s.accepted
    && s.sessions[id].receivedBytes == |Joined(s.accepted[id])| <= s.sessions[id].declaredSizeBytes
  }

  ghost predicate AllTiled(s: State) {
    && (forall id <- s.sessions :: SessionTiled(s, id))
    && (forall id <- s.accepted :: Tiled(s.accepted[id]))
  }

  lemma AppendedTile(chunks: seq<Chunk>, chunk: Chunk)
    requires Tiled(chunks) && chunk.offset == |Joined(chunks)|
    ensures Tiled(chunks + [chunk])
    ensures Joined(chunks + [chunk]) == Joined(chunks) + chunk.data
  {
    var longer := chunks + [chunk];
    assert longer[..|chunks|] == chunks;
    forall k | 0 <= k < |longer|
      ensures longer[k].offset == |Joined(longer[..k])|
    {
      if k < |chunks| {
        assert longer[..k] == chunks[..k];
      }
    }
  }

  lemma {:induction false} JoinedGrows(chunks: seq<Chunk>, k: nat)
    requires k <= |chunks|
    ensures |Joined(chunks[..k])| <= |Joined(chunks)|
    ensures Joined(chunks)[..|Joined(chunks[..k])|] == Joined(chunks[..k])
    decreases |chunks| - k
  {
    if k == |chunks| {
      assert chunks[..k] == chunks;
    } else {
      var shorter := chunks[..|chunks| - 1];
      assert shorter[..k] == chunks[..k];
      JoinedGrows(shorter, k);
    }
  }

  lemma JoinedOfPrefix(chunks: seq<Chunk>, k: nat)
    requires k < |chunks|
    ensures Joined(chunks[..k + 1]) == Joined(chunks[..k]) + chunks[k].data
  {
    assert chunks[..k + 1][..k] == chunks[..k];
  }

  /** No two accepted ranges overlap. */
  lemma AcceptedRangesDoNotOverlap(chunks: seq<Chunk>, j: nat, k: nat)
    requires Tiled(chunks) && j < k < |chunks|
    ensures chunks[j].offset + |chunks[j].data| <= chunks[k].offset
  {
    hide Joined;
    JoinedOfPrefix(chunks, j);
    JoinedGrows(chunks[..k], j + 1);
    assert chunks[..k][..j + 1] == chunks[..j + 1];
  }

  /** Range `k` holds exactly the bytes of chunk `k`. */
  lemma AcceptedRangeHoldsItsChunk(chunks: seq<Chunk>, k: nat)
    requires Tiled(chunks) && k < |chunks|
    ensures 0 <= chunks[k].offset && chunks[k].offset + |chunks[k].data| <= |Joined(chunks)|
    ensures Joined(chunks)[chunks[k].offset..chunks[k].offset + |chunks[k].data|] == chunks[k].data
  {
    hide Joined;
    var start, joined := chunks[k].offset, Joined(chunks);
    JoinedOfPrefix(chunks, k);
    JoinedGrows(chunks, k + 1);
    var front := Joined(chunks[..k + 1]);
    assert front[start..] == chunks[k].data;
    assert front == joined[..|front|];
  }

  lemma ReserveTilesTheSession(s: State, id: SessionId, offset: int, data: Content)
    requires AllTiled(s) && id in s.sessions
    ensures var t := ExecuteReserve(s, id, offset, data).state;
            SessionTiled(t, id) && Tiled(t.accepted[id])
  {
    hide Tiled, Joined;
    assert SessionTiled(s, id);
    if s.sessions[id].receivedBytes == offset {
      AppendedTile(s.accepted[id], Chunk(offset, data));
    }
  }

  lemma ReserveKeepsTiles(s: State, id: SessionId, offset: int, data: Content)
    requires AllTiled(s)
    ensures AllTiled(ExecuteReserve(s, id, offset, data).state)
  {
    hide Tiled, Joined, ExecuteReserve;
    if id in s.sessions {
      ReserveTilesTheSession(s, id, offset, data);
    }
    var t := ExecuteReserve(s, id, offset, data).state;
    forall other <- t.sessions
      ensures SessionTiled(t, other)
    {
      if other != id {
        assert SessionTiled(s, other);
        assert t.accepted[other] == s.accepted[other];
      }
    }
  }

  lemma ExecuteKeepsTiles(p: Settings, s: State, action: Action, io: Io)
    requires AllTiled(s)
    ensures AllTiled(Execute(p, s, action, io).state)
  {
    hide Tiled, Joined, ExecuteReserve, Execute;
    if action.Reserve? {
      UploadCallsExecuted(p, s, action, io);
      ReserveKeepsTiles(s, action.sessionId, action.offset, action.data);
    } else {
      var t := Execute(p, s, action, io).state;
      ExecuteFrame(p, s, action, io);
      SessionsOnlyChangeStatus(p, s, action, io);
      forall id <- t.sessions
        ensures SessionTiled(t, id)
      {
        assert SessionTiled(s, id);
      }
    }
  }

  lemma OtherEventKeepsTiles(p: Settings, s: State, event: Event)
    requires AllTiled(s) && !event.Step?
    ensures AllTiled(Apply(p, s, event))
  {
    hide ProgramOf, Crashed, Stepped, Execute, HasOpenSession, IsSha256Hex, Tiled;
    var t := Apply(p, s, event);
    forall id <- t.sessions
      ensures SessionTiled(t, id)
    {
      if id in s.sessions {
        assert SessionTiled(s, id);
      }
    }
    forall id <- t.accepted
      ensures Tiled(t.accepted[id])
    {
      if id !in s.accepted {
        EmptyIsTiled();
      }
    }
  }

  lemma EmptyIsTiled()
    ensures Tiled([])
  {
  }

  lemma ApplyKeepsTiles(p: Settings, s: State, event: Event)
    requires AllTiled(s)
    ensures AllTiled(Apply(p, s, event))
  {
    hide Apply, Execute, Tiled, SessionTiled;
    if event.Step? {
      StepFrame(p, s, event);
      if Apply(p, s, event) != s {
        var head := s.requests[event.request].program[0];
        ExecuteKeepsTiles(p, s, head, event.io);
        SameSessionsStayTiled(Execute(p, s, head, event.io).state, Apply(p, s, event));
      }
    } else {
      OtherEventKeepsTiles(p, s, event);
    }
  }

  lemma SameSessionsStayTiled(s: State, t: State)
    requires AllTiled(s) && t.sessions == s.sessions && t.accepted == s.accepted
    ensures AllTiled(t)
  {
    hide Tiled, Joined;
    forall id <- t.sessions
      ensures SessionTiled(t, id)
    {
      assert SessionTiled(s, id);
    }
  }

  lemma {:induction false} AcceptedRangesAlwaysTile(p: Settings, s: State, events: seq<Event>)
    requires AllTiled(s)
    ensures AllTiled(Run(p, s, events))
    decreases |events|
  {
    hide Apply, AllTiled;
    if events != [] {
      ApplyKeepsTiles(p, s, events[0]);
      AcceptedRangesAlwaysTile(p, Apply(p, s, events[0]), events[1..]);
    }
  }
}
