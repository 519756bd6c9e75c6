/**
 Quota conservation: whatever interleaves with whatever, an account has used exactly the bytes of
 the rows recorded for it, plus the charges unfinished completions hold, plus the refunds still
 owed for rows already deleted, plus what crashed requests took with them.
 */
module Quota {
  import opened Sums
  import opened Protocol
  import opened Frames
  import opened StagingFile
  import opened Text

  function RowShare(row: BlobRow, user: UserId): nat {
    if row.uploadedBy == user then row.sizeBytes else 0
  }

  ghost function RowBytes(s: State, user: UserId): int {
    Total(map h | h in s.blobs :: RowShare(s.blobs[h], user))
  }

  ghost function PendingBytes(s: State, user: UserId): int {
    Total(map r | r in s.requests :: HeldBy(s.requests[r].program, user))
  }

  ghost predicate Balanced(s: State, user: UserId)
    requires user in s.accounts
  {
    s.accounts[user].usedBytes == RowBytes(s, user) + PendingBytes(s, user) + LeakedBytes(s, user)
  }

  ghost predicate Conserved(s: State) {
    "" !in s.accounts && forall user <- s.accounts :: Balanced(s, user)
  }

  // ---------------------------------------------------------------------------
  // How the sums move
  // ---------------------------------------------------------------------------

  lemma {:induction false} HeldByJoined(front: seq<Action>, back: seq<Action>, user: UserId)
    ensures HeldBy(front + back, user) == HeldBy(front, user) + HeldBy(back, user)
  {
    if front == [] {
      assert front + back == back;
    } else {
      assert (front + back)[1..] == front[1..] + back;
      HeldByJoined(front[1..], back, user);
    }
  }

  lemma SameRows(s: State, t: State, user: UserId)
    requires s.blobs == t.blobs
    ensures RowBytes(s, user) == RowBytes(t, user)
  {
  }

  lemma SameRequests(s: State, t: State, user: UserId)
    requires s.requests == t.requests
    ensures PendingBytes(s, user) == PendingBytes(t, user)
  {
  }

  lemma RowAdded(s: State, t: State, sha256: Digest, row: BlobRow, user: UserId)
    requires sha256 !in s.blobs && t.blobs == s.blobs[sha256 := row]
    ensures RowBytes(t, user) == RowBytes(s, user) + RowShare(row, user)
  {
    var before := map h | h in s.blobs :: RowShare(s.blobs[h], user);
    var after := map h | h in t.blobs :: RowShare(t.blobs[h], user);
    assert after == before[sha256 := RowShare(row, user)];
    TotalPut(before, sha256, RowShare(row, user));
  }

  lemma RowRemoved(s: State, t: State, sha256: Digest, user: UserId)
    requires sha256 in s.blobs && t.blobs == s.blobs - {sha256}
    ensures RowBytes(t, user) == RowBytes(s, user) - RowShare(s.blobs[sha256], user)
  {
    var before := map h | h in s.blobs :: RowShare(s.blobs[h], user);
    var after := map h | h in t.blobs :: RowShare(t.blobs[h], user);
    assert after == before - {sha256};
    TotalTakesOut(before, sha256);
  }

  lemma ProgramReplaced(s: State, t: State, r: RequestId, request: Request, user: UserId)
    requires t.requests == s.requests[r := request]
    ensures PendingBytes(t, user) == PendingBytes(s, user) + HeldBy(request.program, user)
                                     - (if r in s.requests then HeldBy(s.requests[r].program, user) else 0)
  {
    var before := map q | q in s.requests :: HeldBy(s.requests[q].program, user);
    var after := map q | q in t.requests :: HeldBy(t.requests[q].program, user);
    assert after == before[r := HeldBy(request.program, user)];
    TotalPut(before, r, HeldBy(request.program, user));
  }

  lemma RequestDropped(s: State, t: State, r: RequestId, user: UserId)
    requires r in s.requests && t.requests == s.requests - {r}
    ensures PendingBytes(t, user) == PendingBytes(s, user) - HeldBy(s.requests[r].program, user)
  {
    var before := map q | q in s.requests :: HeldBy(s.requests[q].program, user);
    var after := map q | q in t.requests :: HeldBy(t.requests[q].program, user);
    assert after == before - {r};
    TotalTakesOut(before, r);
    assert before[r] == HeldBy(s.requests[r].program, user);
  }

  lemma SumsAreNotNegative(s: State, user: UserId)
    ensures RowBytes(s, user) >= 0
    ensures forall r <- s.requests :: PendingBytes(s, user) >= HeldBy(s.requests[r].program, user)
    ensures PendingBytes(s, user) >= 0
  {
    TotalIsAtLeast(map h | h in s.blobs :: RowShare(s.blobs[h], user), map[]);
    var held := map r | r in s.requests :: HeldBy(s.requests[r].program, user);
    TotalIsAtLeast(held, map[]);
    forall r <- s.requests
      ensures PendingBytes(s, user) >= HeldBy(s.requests[r].program, user)
    {
      TotalTakesOut(held, r);
      TotalIsAtLeast(held - {r}, map[]);
    }
  }

  /** A refund that is owed has been charged before, so the clamp of `releaseUpload` never bites. */
  lemma RefundNeverClamps(s: State, r: RequestId)
    requires Conserved(s) && r in s.requests
    requires s.requests[r].program != [] && s.requests[r].program[0].Release?
    ensures var refund := s.requests[r].program[0];
            refund.userId in s.accounts ==> s.accounts[refund.userId].usedBytes >= refund.amount
  {
    var refund := s.requests[r].program[0];
    if refund.userId in s.accounts {
      assert Balanced(s, refund.userId);
      SumsAreNotNegative(s, refund.userId);
    }
  }

  // ---------------------------------------------------------------------------
  // One step
  // ---------------------------------------------------------------------------

  /**
   The row a collector is about to delete weighs, for every account, what the collector will give
   back: its listing still describes the row, or both weigh nothing.
   */
  predicate ListingMatches(s: State, blob: CollectableBlob) {
    blob.sha256 in s.blobs ==>
      var row := s.blobs[blob.sha256];
      row.sizeBytes == blob.sizeBytes && (row.uploadedBy == blob.uploadedBy || row.sizeBytes == 0)
  }

  lemma HeldByFew(first: Action, second: Action, user: UserId)
    ensures HeldBy([], user) == 0
    ensures HeldBy([first], user) == Held(first, user)
    ensures HeldBy([first, second], user) == Held(first, user) + Held(second, user)
  {
    assert [first, second][1..] == [second];
    assert HeldBy([second], user) == Held(second, user);
  }

  lemma HeldByHead(program: seq<Action>, user: UserId)
    requires program != []
    ensures HeldBy(program, user) == Held(program[0], user) + HeldBy(program[1..], user)
  {
  }

  lemma ChargeMovesBytes(s: State, session: Session, user: UserId)
    requires user in s.accounts
    ensures var o := ExecuteCharge(s, session);
            o.state.accounts[user].usedBytes == s.accounts[user].usedBytes + HeldBy(o.next, user)
  {
    HeldByFew(Commit(session), Commit(session), user);
    HeldByFew(DiscardStaging(session.id), MarkAborted(session.id), user);
  }

  lemma ReleaseMovesBytes(s: State, owner: UserId, bytes: nat, user: UserId)
    requires user in s.accounts && (owner == user ==> s.accounts[user].usedBytes >= bytes)
    ensures Released(s, owner, bytes).accounts[user].usedBytes
         == s.accounts[user].usedBytes - Held(Release(owner, bytes), user)
  {
  }

  lemma CommitMovesNothing(p: Settings, s: State, session: Session, io: Io, user: UserId)
    ensures HeldBy(ExecuteCommit(p, s, session, io).next, user) == Held(Commit(session), user)
  {
    hide ExecuteCommit;
    HeldByFew(Record(session), Record(session), user);
    HeldByFew(Release(session.userId, session.declaredSizeBytes), MarkAborted(session.id), user);
  }

  lemma RecordMovesBytes(s: State, session: Session, user: UserId)
    ensures var o := ExecuteRecord(s, session);
            RowBytes(o.state, user) + HeldBy(o.next, user) == RowBytes(s, user) + Held(Record(session), user)
  {
    hide RowBytes;
    HeldByFew(Release(session.userId, session.declaredSizeBytes), MarkCompleted(session.id), user);
    HeldByFew(MarkCompleted(session.id), MarkCompleted(session.id), user);
    if session.blobSha256 !in s.blobs {
      RowAdded(s, ExecuteRecord(s, session).state, session.blobSha256,
               BlobRow(session.declaredSizeBytes, session.userId, s.now), user);
    }
  }

  lemma CollectMovesBytes(p: Settings, s: State, blob: CollectableBlob, user: UserId)
    requires user != "" && (Collectable(p, s, blob.sha256) ==> ListingMatches(s, blob))
    ensures var o := ExecuteCollectRow(p, s, blob);
            RowBytes(o.state, user) + HeldBy(o.next, user) == RowBytes(s, user)
  {
    hide RowBytes, Referenced, Awaited;
    HeldByFew(DiscardBlob(blob.sha256), Release(blob.uploadedBy, blob.sizeBytes), user);
    if Collectable(p, s, blob.sha256) {
      RowRemoved(s, ExecuteCollectRow(p, s, blob).state, blob.sha256, user);
    }
  }

  lemma OtherCallsHoldNothing(p: Settings, s: State, action: Action, io: Io, user: UserId)
    requires !action.Charge? && !action.Release? && !action.Commit? && !action.Record? && !action.CollectRow?
    ensures HeldBy(Execute(p, s, action, io).next, user) == Held(action, user) == 0
  {
    hide ExecuteReserve, ExecuteWrite, ExecuteCheckRow, ExecuteCharge, ExecuteCommit, ExecuteRecord, Released;
    hide WithStatus, WithoutStaging, ExecuteCollectRow, ExecuteReadSizes, ExecuteFinalize;
    var next := Execute(p, s, action, io).next;
    ExecuteFrame(p, s, action, io);
    match action
    case CheckRow(session) =>
      HeldByFew(Charge(session), Charge(session), user);
      HeldByFew(DiscardStaging(session.id), MarkCompleted(session.id), user);
    case Write(session, _, _) =>
      HeldByFew(CheckRow(session), CheckRow(session), user);
      HeldByFew(MarkAborted(session.id), DiscardStaging(session.id), user);
    case Reserve(_, _, _) =>
      if next != [] {
        HeldByFew(next[0], next[0], user);
      }
    case ReadSizes(_, _, _, _) =>
      if next != [] {
        HeldByFew(next[0], next[0], user);
        assert next == [next[0]];
      }
    case _ =>
  }

  /** What one call changes: the account, the rows and what the calls that follow hold add up. */
  lemma ExecuteMovesBytes(p: Settings, s: State, action: Action, io: Io, user: UserId)
    requires user != "" && user in s.accounts
    requires action.Release? && action.userId == user ==> s.accounts[user].usedBytes >= action.amount
    requires action.CollectRow? && Collectable(p, s, action.blob.sha256) ==> ListingMatches(s, action.blob)
    ensures var outcome := Execute(p, s, action, io);
            && user in outcome.state.accounts
            && outcome.state.accounts[user].usedBytes - s.accounts[user].usedBytes
               == RowBytes(outcome.state, user) - RowBytes(s, user) + HeldBy(outcome.next, user) - Held(action, user)
  {
    hide ExecuteReserve, ExecuteWrite, ExecuteCheckRow, ExecuteCharge, ExecuteCommit, ExecuteRecord, Released;
    hide WithStatus, WithoutStaging, ExecuteCollectRow, ExecuteReadSizes, ExecuteFinalize, Collectable;
    ExecuteFrame(p, s, action, io);
    match action
    case Charge(session) => ChargeMovesBytes(s, session, user);
    case Release(owner, bytes) => ReleaseMovesBytes(s, owner, bytes, user);
    case Commit(session) => CommitMovesNothing(p, s, session, io, user);
    case Record(session) => RecordMovesBytes(s, session, user);
    case CollectRow(blob, _) => CollectMovesBytes(p, s, blob, user);
    case _ => OtherCallsHoldNothing(p, s, action, io, user);
  }

  lemma StepConserves(p: Settings, s: State, r: RequestId, io: Io)
    requires Conserved(s) && r in s.requests && s.requests[r].program != []
    requires var head := s.requests[r].program[0];
             head.CollectRow? && Collectable(p, s, head.blob.sha256) ==> ListingMatches(s, head.blob)
    ensures Conserved(Stepped(p, s, r, io))
  {
    hide Execute, RowBytes, PendingBytes, Collectable;
    var request := s.requests[r];
    var head, tail := request.program[0], request.program[1..];
    var outcome := Execute(p, s, head, io);
    var t := Stepped(p, s, r, io);
    ExecuteFrame(p, s, head, io);
    forall user <- t.accounts
      ensures Balanced(t, user)
    {
      assert Balanced(s, user);
      if head.Release? {
        RefundNeverClamps(s, r);
      }
      ExecuteMovesBytes(p, s, head, io, user);
      HeldByJoined(outcome.next, tail, user);
      ProgramReplaced(s, t, r, request.(program := outcome.next + tail), user);
      SameRows(t, outcome.state, user);
    }
  }

  /** What one user's books show after a collector's delete: the row's weight leaves, the listing's is owed. */
  lemma DeleteMovesShares(p: Settings, s: State, r: RequestId, io: Io, user: UserId)
    requires r in s.requests && s.requests[r].program != [] && user in s.accounts
    requires var head := s.requests[r].program[0];
             head.CollectRow? && Collectable(p, s, head.blob.sha256) && head.blob.uploadedBy != ""
             && head.blob.sha256 in s.blobs
    ensures var blob, t := s.requests[r].program[0].blob, Stepped(p, s, r, io);
            && t.accounts == s.accounts && t.leaked == s.leaked
            && RowBytes(t, user) == RowBytes(s, user) - RowShare(s.blobs[blob.sha256], user)
            && PendingBytes(t, user) == PendingBytes(s, user) + (if blob.uploadedBy == user then blob.sizeBytes else 0)
  {
    hide RowBytes, PendingBytes, Collectable, Stepped, HeldBy;
    var request := s.requests[r];
    var blob, tail, t := request.program[0].blob, request.program[1..], Stepped(p, s, r, io);
    var next := [DiscardBlob(blob.sha256), Release(blob.uploadedBy, blob.sizeBytes)];
    CollectedStep(p, s, r, io);
    RowRemoved(s, t, blob.sha256, user);
    ProgramReplaced(s, t, r, request.(program := next + tail), user);
    HeldByJoined(next, tail, user);
    HeldByFew(next[0], next[1], user);
    HeldByHead(request.program, user);
  }

  /** A stale listing leaves some account out of balance: the one it should have refunded, or the one it did. */
  lemma StaleListingUnbalances(p: Settings, s: State, r: RequestId, io: Io) returns (user: UserId)
    requires Conserved(s) && r in s.requests && s.requests[r].program != []
    requires var head := s.requests[r].program[0];
             head.CollectRow? && Collectable(p, s, head.blob.sha256) && !ListingMatches(s, head.blob)
             && head.blob.uploadedBy in s.accounts && s.blobs[head.blob.sha256].uploadedBy in s.accounts
    ensures user in s.accounts && user in Stepped(p, s, r, io).accounts && !Balanced(Stepped(p, s, r, io), user)
  {
    hide RowBytes, PendingBytes, Collectable, Stepped;
    var blob := s.requests[r].program[0].blob;
    CollectableHasARow(p, s, blob.sha256);
    var row := s.blobs[blob.sha256];
    user := if row.uploadedBy == blob.uploadedBy || row.sizeBytes > 0 then row.uploadedBy else blob.uploadedBy;
    DeleteMovesShares(p, s, r, io, user);
    assert Balanced(s, user);
  }

  lemma CollectedStep(p: Settings, s: State, r: RequestId, io: Io)
    requires r in s.requests && s.requests[r].program != []
    requires var head := s.requests[r].program[0];
             head.CollectRow? && Collectable(p, s, head.blob.sha256) && head.blob.uploadedBy != ""
    ensures var head := s.requests[r].program[0];
            Stepped(p, s, r, io) == s.(
              blobs := s.blobs - {head.blob.sha256},
              requests := s.requests[r := s.requests[r].(program :=
                [DiscardBlob(head.blob.sha256), Release(head.blob.uploadedBy, head.blob.sizeBytes)]
                + s.requests[r].program[1..])])
  {
    hide Referenced, Awaited, ExecuteReserve, ExecuteWrite, ExecuteCheckRow, ExecuteCharge, ExecuteCommit;
    hide ExecuteRecord, Released, WithStatus, WithoutStaging, ExecuteReadSizes, ExecuteFinalize;
  }

  /** Deleting a row conserves the quota exactly when the collector's listing still describes it. */
  lemma CollectingConservesIffListingMatches(p: Settings, s: State, r: RequestId, io: Io)
    requires Conserved(s) && r in s.requests && s.requests[r].program != []
    requires var head := s.requests[r].program[0];
             head.CollectRow? && Collectable(p, s, head.blob.sha256)
             && head.blob.uploadedBy in s.accounts && s.blobs[head.blob.sha256].uploadedBy in s.accounts
    ensures Conserved(Stepped(p, s, r, io)) <==> ListingMatches(s, s.requests[r].program[0].blob)
  {
    hide Stepped, Balanced, Collectable;
    if ListingMatches(s, s.requests[r].program[0].blob) {
      StepConserves(p, s, r, io);
    } else {
      var user := StaleListingUnbalances(p, s, r, io);
    }
  }

  // ---------------------------------------------------------------------------
  // Other events
  // ---------------------------------------------------------------------------

  lemma {:induction false} NewProgramsHoldNothing(program: seq<Action>, user: UserId)
    requires forall k :: 0 <= k < |program| ==> Held(program[k], user) == 0
    ensures HeldBy(program, user) == 0
  {
    if program != [] {
      NewProgramsHoldNothing(program[1..], user);
    }
  }

  lemma StartHoldsNothing(p: Settings, s: State, event: Event, r: RequestId, user: UserId)
    requires !event.Step? && r in Apply(p, s, event).requests && r !in s.requests
    ensures HeldBy(Apply(p, s, event).requests[r].program, user) == 0
  {
    hide BegunUpload, WithoutBuild, Crashed, ChunkIsPlausible, IsExpired, MayFinalize, SweepProgram;
    hide CollectionProgram, Trim, Referenced, Awaited, Stepped, Execute;
    var t := Apply(p, s, event);
    var program := t.requests[r].program;
    forall k | 0 <= k < |program|
      ensures Held(program[k], user) == 0
    {
      assert program[k] in program;
      match event
      case StartSweep(_, expired) => SweepOnlyDiscardsAndDeletes(expired, program[k]);
      case StartCollection(_, listed) => CollectionOnlyCollects(s, listed, program[k]);
      case _ =>
    }
    NewProgramsHoldNothing(program, user);
  }

  lemma OtherEventConserves(p: Settings, s: State, event: Event)
    requires Conserved(s) && !event.Step?
    ensures Conserved(Apply(p, s, event))
  {
    hide Apply, RowBytes, PendingBytes;
    var t := Apply(p, s, event);
    OtherEventFrame(p, s, event);
    forall user <- t.accounts
      ensures Balanced(t, user)
    {
      assert Balanced(s, user);
      SameRows(s, t, user);
      if event.Crash? && event.request in s.requests {
        RequestDropped(s, t, event.request, user);
        CrashLeaks(p, s, event, user);
      } else if t.requests == s.requests {
        SameRequests(s, t, user);
      } else {
        var r := event.request;
        ProgramReplaced(s, t, r, t.requests[r], user);
        StartHoldsNothing(p, s, event, r, user);
      }
    }
  }

  lemma CrashLeaks(p: Settings, s: State, event: Event, user: UserId)
    requires event.Crash? && event.request in s.requests && user in s.accounts
    ensures LeakedBytes(Apply(p, s, event), user)
         == LeakedBytes(s, user) + HeldBy(s.requests[event.request].program, user)
  {
    hide Stepped, Execute, Started, ProgramOf, BegunUpload, WithoutBuild;
  }

  // ---------------------------------------------------------------------------
  // Whole runs
  // ---------------------------------------------------------------------------

  /** A collector deletes what it listed no later than one grace period after listing it. */
  ghost predicate Timely(p: Settings, s: State, event: Event) {
    event.Step? && event.request in s.requests && s.requests[event.request].program != [] ==>
      var head := s.requests[event.request].program[0];
      head.CollectRow? ==> s.now <= head.listedAt + p.graceSeconds
  }

  ghost predicate TimelyRun(p: Settings, s: State, events: seq<Event>)
    decreases |events|
  {
    events == [] || (Timely(p, s, events[0]) && TimelyRun(p, Apply(p, s, events[0]), events[1..]))
  }

  /** A row that no longer matches a listing was recorded after the listing was made. */
  ghost predicate ListingIsFresh(s: State, action: Action) {
    action.CollectRow? ==>
      && action.listedAt <= s.now
      && (action.blob.sha256 in s.blobs ==>
           || s.blobs[action.blob.sha256].createdAt >= action.listedAt
           || (s.blobs[action.blob.sha256].sizeBytes == action.blob.sizeBytes
               && s.blobs[action.blob.sha256].uploadedBy == action.blob.uploadedBy))
  }

  ghost predicate ListingsAreFresh(s: State) {
    forall action :: Outstanding(s, action) ==> ListingIsFresh(s, action)
  }

  lemma RowsAreKeptOrRecordedNow(p: Settings, s: State, action: Action, io: Io)
    ensures var t := Execute(p, s, action, io).state;
            forall h <- t.blobs :: t.blobs[h].createdAt == s.now || (h in s.blobs && t.blobs[h] == s.blobs[h])
  {
    hide ExecuteReserve, ExecuteWrite, ExecuteCheckRow, ExecuteCharge, ExecuteCommit, Released;
    hide WithStatus, WithoutStaging, ExecuteReadSizes, ExecuteFinalize, Collectable;
  }

  lemma NothingLeadsToCollectRow(p: Settings, s: State, action: Action, io: Io, k: nat)
    requires k < |Execute(p, s, action, io).next|
    ensures !Execute(p, s, action, io).next[k].CollectRow?
  {
    hide ExecuteReserve, ExecuteWrite, ExecuteCheckRow, ExecuteCharge, ExecuteCommit, ExecuteRecord, Released;
    hide WithStatus, WithoutStaging, ExecuteCollectRow, ExecuteReadSizes, ExecuteFinalize;
  }

  lemma ListingsStayFresh(p: Settings, s: State, event: Event)
    requires ListingsAreFresh(s)
    ensures ListingsAreFresh(Apply(p, s, event))
  {
    hide Apply, Outstanding, Execute;
    var t := Apply(p, s, event);
    if event.Step? {
      StepFrame(p, s, event);
    } else {
      OtherEventFrame(p, s, event);
    }
    forall action | Outstanding(t, action) && action.CollectRow?
      ensures ListingIsFresh(t, action)
    {
      if !event.Step? {
        if !Outstanding(s, action) {
          OutstandingAfterOther(p, s, event, action);
        }
      } else if t != s {
        var head := s.requests[event.request].program[0];
        ExecuteFrame(p, s, head, event.io);
        RowsAreKeptOrRecordedNow(p, s, head, event.io);
        if !Outstanding(s, action) {
          OutstandingAfterStep(p, s, event.request, event.io, action);
          var next := Execute(p, s, head, event.io).next;
          var k :| 0 <= k < |next| && next[k] == action;
          NothingLeadsToCollectRow(p, s, head, event.io, k);
        }
      }
    }
  }

  lemma TimelyListingMatches(p: Settings, s: State, r: RequestId)
    requires ListingsAreFresh(s)
    requires r in s.requests && s.requests[r].program != [] && s.requests[r].program[0].CollectRow?
    requires var head := s.requests[r].program[0];
             s.now <= head.listedAt + p.graceSeconds && Collectable(p, s, head.blob.sha256)
    ensures ListingMatches(s, s.requests[r].program[0].blob)
  {
    var head := s.requests[r].program[0];
    assert Outstanding(s, head);
    assert ListingIsFresh(s, head);
  }

  lemma {:induction false} QuotaIsConserved(p: Settings, s: State, events: seq<Event>)
    requires Conserved(s) && ListingsAreFresh(s)
    requires TimelyRun(p, s, events)
    ensures Conserved(Run(p, s, events))
    decreases |events|
  {
    hide Apply, Conserved, ListingMatches, ListingsAreFresh;
    if events != [] {
      var event := events[0];
      if event.Step? {
        StepFrame(p, s, event);
      }
      if event.Step? && event.request in s.requests && s.requests[event.request].program != [] {
        var head := s.requests[event.request].program[0];
        if head.CollectRow? && Collectable(p, s, head.blob.sha256) {
          TimelyListingMatches(p, s, event.request);
        }
        StepConserves(p, s, event.request, event.io);
      } else if !event.Step? {
        OtherEventConserves(p, s, event);
      }
      ListingsStayFresh(p, s, event);
      QuotaIsConserved(p, Apply(p, s, event), events[1..]);
    }
  }

  lemma InitiallyConserved(s: State)
    requires Initial(s)
    ensures Conserved(s) && ListingsAreFresh(s)
  {
    forall user <- s.accounts
      ensures Balanced(s, user)
    {
      assert RowBytes(s, user) == 0 && PendingBytes(s, user) == 0;
    }
  }

  /** From empty accounts, over every run whose collections finish within the grace period. */
  lemma QuotaIsConservedFromTheStart(p: Settings, s: State, events: seq<Event>)
    requires Initial(s) && TimelyRun(p, s, events)
    ensures Conserved(Run(p, s, events))
  {
    InitiallyConserved(s);
    QuotaIsConserved(p, s, events);
  }

  // ---------------------------------------------------------------------------
  // Exactly when the quota is conserved
  // ---------------------------------------------------------------------------

  /** Whoever a call charges or refunds has an account. */
  predicate OwnerIsKnown(accounts: map<UserId, Account>, action: Action) {
    match action
    case Write(session, _, _) => session.userId in accounts
    case CheckRow(session) => session.userId in accounts
    case Charge(session) => session.userId in accounts
    case Commit(session) => session.userId in accounts
    case Record(session) => session.userId in accounts
    case CollectRow(blob, _) => blob.uploadedBy in accounts
    case _ => true
  }

  ghost predicate TableOwnersAreKnown(s: State) {
    && (forall id <- s.sessions :: s.sessions[id].userId in s.accounts)
    && (forall h <- s.blobs :: s.blobs[h].uploadedBy in s.accounts)
  }

  ghost predicate OwnersAreKnown(s: State) {
    TableOwnersAreKnown(s) && forall action :: Outstanding(s, action) ==> OwnerIsKnown(s.accounts, action)
  }

  lemma ExecuteKeepsTableOwners(p: Settings, s: State, action: Action, io: Io)
    requires TableOwnersAreKnown(s) && OwnerIsKnown(s.accounts, action)
    ensures TableOwnersAreKnown(Execute(p, s, action, io).state)
  {
    hide ExecuteWrite, ExecuteCheckRow, ExecuteCommit, ExecuteReadSizes, ExecuteFinalize, Collectable;
  }

  lemma NextOwnersAreKnown(p: Settings, s: State, action: Action, io: Io, next: Action)
    requires TableOwnersAreKnown(s) && OwnerIsKnown(s.accounts, action) && next in Execute(p, s, action, io).next
    ensures OwnerIsKnown(s.accounts, next)
  {
    hide Collectable, WithStoredSizes, AllRecorded, StagingFile.WriteAt;
  }

  lemma OtherEventKeepsTableOwners(p: Settings, s: State, event: Event)
    requires TableOwnersAreKnown(s) && !event.Step?
    ensures TableOwnersAreKnown(Apply(p, s, event))
  {
    OtherEventFrame(p, s, event);
    hide Started, ProgramOf, WithBuild, WithFailedBuild, WithQuota, Crashed, Stepped, Execute;
  }

  lemma OwnersStayKnown(p: Settings, s: State, event: Event)
    requires OwnersAreKnown(s)
    ensures OwnersAreKnown(Apply(p, s, event))
  {
    hide Apply, Execute, Outstanding, TableOwnersAreKnown;
    var t := Apply(p, s, event);
    if !event.Step? {
      OtherEventFrame(p, s, event);
      OtherEventKeepsTableOwners(p, s, event);
      forall action | Outstanding(t, action)
        ensures OwnerIsKnown(t.accounts, action)
      {
        if !Outstanding(s, action) {
          OutstandingAfterOther(p, s, event, action);
          KnownRowsAreKnownListings(s, action);
        }
      }
    } else {
      StepFrame(p, s, event);
      if t != s {
        StepKeepsOwners(p, s, event.request, event.io);
      }
    }
  }

  lemma KnownRowsAreKnownListings(s: State, action: Action)
    requires TableOwnersAreKnown(s)
    ensures (action.CollectRow? && action.blob.sha256 in s.blobs
             && s.blobs[action.blob.sha256].uploadedBy == action.blob.uploadedBy) ==>
              OwnerIsKnown(s.accounts, action)
  {
  }

  lemma StepKeepsOwners(p: Settings, s: State, r: RequestId, io: Io)
    requires OwnersAreKnown(s) && r in s.requests && s.requests[r].program != []
    ensures OwnersAreKnown(Stepped(p, s, r, io))
  {
    hide Execute, Outstanding, TableOwnersAreKnown;
    var head, t := s.requests[r].program[0], Stepped(p, s, r, io);
    HeadIsOutstanding(s, r);
    ExecuteFrame(p, s, head, io);
    ExecuteKeepsTableOwners(p, s, head, io);
    SameTablesSameOwners(Execute(p, s, head, io).state, t);
    forall action | Outstanding(t, action)
      ensures OwnerIsKnown(t.accounts, action)
    {
      if !Outstanding(s, action) {
        OutstandingAfterStep(p, s, r, io, action);
        NextOwnersAreKnown(p, s, head, io, action);
      }
    }
  }

  lemma SameTablesSameOwners(s: State, t: State)
    requires TableOwnersAreKnown(s) && t == s.(requests := t.requests)
    ensures TableOwnersAreKnown(t)
  {
  }

  /** If this event deletes a row, the listing it goes by still describes the row. */
  ghost predicate UsesMatchingListing(p: Settings, s: State, event: Event) {
    event.Step? && event.request in s.requests && s.requests[event.request].program != [] ==>
      var head := s.requests[event.request].program[0];
      head.CollectRow? && Collectable(p, s, head.blob.sha256) ==> ListingMatches(s, head.blob)
  }

  ghost predicate ListingsAlwaysMatch(p: Settings, s: State, events: seq<Event>)
    decreases |events|
  {
    events == [] || (UsesMatchingListing(p, s, events[0]) && ListingsAlwaysMatch(p, Apply(p, s, events[0]), events[1..]))
  }

  /** The quota is conserved before, between and after the events. */
  ghost predicate AlwaysConserved(p: Settings, s: State, events: seq<Event>)
    decreases |events|
  {
    Conserved(s) && (events == [] || AlwaysConserved(p, Apply(p, s, events[0]), events[1..]))
  }

  lemma EventConservesIffListingMatches(p: Settings, s: State, event: Event)
    requires Conserved(s) && OwnersAreKnown(s)
    ensures Conserved(Apply(p, s, event)) <==> UsesMatchingListing(p, s, event)
  {
    hide Apply, Conserved, ListingMatches, Collectable, Outstanding, Stepped;
    if !event.Step? {
      OtherEventConserves(p, s, event);
    } else {
      StepFrame(p, s, event);
      if event.request in s.requests && s.requests[event.request].program != [] {
        var head := s.requests[event.request].program[0];
        HeadIsOutstanding(s, event.request);
        if head.CollectRow? && Collectable(p, s, head.blob.sha256) {
          CollectableHasARow(p, s, head.blob.sha256);
          CollectingConservesIffListingMatches(p, s, event.request, event.io);
        } else {
          StepConserves(p, s, event.request, event.io);
        }
      }
    }
  }

  lemma CollectableHasARow(p: Settings, s: State, h: Digest)
    requires Collectable(p, s, h)
    ensures h in s.blobs
  {
    hide Referenced, Awaited;
  }

  /** A run conserves the quota throughout exactly when no collector deletes by a stale listing. */
  lemma {:induction false} ConservedThroughoutIffListingsMatch(p: Settings, s: State, events: seq<Event>)
    requires Conserved(s) && OwnersAreKnown(s)
    ensures AlwaysConserved(p, s, events) <==> ListingsAlwaysMatch(p, s, events)
    decreases |events|
  {
    hide Apply, Conserved, OwnersAreKnown, UsesMatchingListing;
    if events != [] {
      EventConservesIffListingMatches(p, s, events[0]);
      OwnersStayKnown(p, s, events[0]);
      if Conserved(Apply(p, s, events[0])) {
        ConservedThroughoutIffListingsMatch(p, Apply(p, s, events[0]), events[1..]);
      } else {
        assert !AlwaysConserved(p, Apply(p, s, events[0]), events[1..]);
      }
    }
  }

  lemma ConservedFromTheStartIffListingsMatch(p: Settings, s: State, events: seq<Event>)
    requires Initial(s)
    ensures AlwaysConserved(p, s, events) <==> ListingsAlwaysMatch(p, s, events)
  {
    InitiallyConserved(s);
    ConservedThroughoutIffListingsMatch(p, s, events);
  }

  ghost predicate WithinQuota(s: State) {
    forall user <- s.accounts :: s.accounts[user].usedBytes <= s.accounts[user].quotaBytes
                                 && s.accounts[user].quotaBytes >= 0
  }

  lemma ExecuteStaysWithinQuota(p: Settings, s: State, action: Action, io: Io)
    requires WithinQuota(s)
    ensures WithinQuota(Execute(p, s, action, io).state)
  {
    hide ExecuteReserve, ExecuteWrite, ExecuteCheckRow, ExecuteCommit, ExecuteRecord;
    hide WithStatus, WithoutStaging, ExecuteCollectRow, ExecuteReadSizes, ExecuteFinalize;
  }

  /** As long as nobody changes a quota, nobody's usage exceeds it, timely or not, crashes or not. */
  lemma {:induction false} QuotaIsNeverExceeded(p: Settings, s: State, events: seq<Event>)
    requires WithinQuota(s)
    requires forall k :: 0 <= k < |events| ==> !events[k].SetQuota?
    ensures WithinQuota(Run(p, s, events))
    decreases |events|
  {
    hide Apply, Execute;
    if events != [] {
      var event := events[0];
      if event.Step? {
        StepFrame(p, s, event);
        if Apply(p, s, event) != s {
          ExecuteStaysWithinQuota(p, s, s.requests[event.request].program[0], event.io);
        }
      } else {
        OtherEventFrame(p, s, event);
      }
      QuotaIsNeverExceeded(p, Apply(p, s, event), events[1..]);
    }
  }

  /** Crashes are the only way to lose a charge. */
  lemma {:induction false} OnlyCrashesLeak(p: Settings, s: State, events: seq<Event>)
    requires forall k :: 0 <= k < |events| ==> !events[k].Crash?
    ensures Run(p, s, events).leaked == s.leaked
    decreases |events|
  {
    hide Apply, Execute;
    if events != [] {
      var event := events[0];
      if event.Step? {
        StepFrame(p, s, event);
        if Apply(p, s, event) != s {
          ExecuteFrame(p, s, s.requests[event.request].program[0], event.io);
        }
      } else {
        OtherEventFrame(p, s, event);
      }
      OnlyCrashesLeak(p, Apply(p, s, event), events[1..]);
    }
  }
}
