/** `RetentionService` as the code runs it: row, then file, then refund, blob by blob. */
module RetentionServices {
  import opened Common
  import opened StagingFile
  import opened Protocol
  import opened Uninterrupted
  import opened Backends

  datatype SweepReport = SweepReport(collected: nat, skipped: nat, reclaimedBytes: nat)

  function CandidateOf(s: State, h: Digest): CollectableBlob
    requires h in s.blobs
  {
    CollectableBlob(h, s.blobs[h].sizeBytes, s.blobs[h].uploadedBy)
  }

  /** The sizes a listing promised. */
  function ListedBytes(s: State, listed: seq<Digest>): nat
    requires forall k :: 0 <= k < |listed| ==> listed[k] in s.blobs
  {
    if listed == [] then 0 else ListedBytes(s, listed[..|listed| - 1]) + s.blobs[listed[|listed| - 1]].sizeBytes
  }

  ghost predicate NoneTwice(listed: seq<Digest>) {
    forall i, j :: 0 <= i < j < |listed| ==> listed[i] != listed[j]
  }

  /** What the report says after the first candidates. */
  ghost predicate Tallies(report: SweepReport, s: State, listed: seq<Digest>, i: nat)
    requires i <= |listed| && forall k :: 0 <= k < |listed| ==> listed[k] in s.blobs
  {
    && report.collected + report.skipped == i
    && (NoneTwice(listed) ==> report.skipped == 0 && report.reclaimedBytes == ListedBytes(s, listed[..i]))
  }

  lemma NothingTallied(s: State, listed: seq<Digest>)
    requires forall k :: 0 <= k < |listed| ==> listed[k] in s.blobs
    ensures Tallies(SweepReport(0, 0, 0), s, listed, 0)
  {
  }

  lemma TallyGrows(report: SweepReport, s: State, listed: seq<Digest>, i: nat, deleted: bool)
    requires (forall k :: 0 <= k < |listed| ==> listed[k] in s.blobs) && i < |listed|
    requires Tallies(report, s, listed, i) && (NoneTwice(listed) ==> deleted)
    ensures Tallies(if deleted then SweepReport(report.collected + 1, report.skipped,
                                                report.reclaimedBytes + s.blobs[listed[i]].sizeBytes)
                    else report.(skipped := report.skipped + 1), s, listed, i + 1)
  {
    assert listed[..i + 1][..i] == listed[..i];
  }

  lemma TallyOfAll(report: SweepReport, s: State, listed: seq<Digest>)
    requires (forall k :: 0 <= k < |listed| ==> listed[k] in s.blobs) && Tallies(report, s, listed, |listed|)
    ensures report.collected + report.skipped == |listed|
    ensures NoneTwice(listed) ==> report.skipped == 0 && report.reclaimedBytes == ListedBytes(s, listed)
  {
    assert listed[..|listed|] == listed;
  }

  lemma CollectionStarts(p: Settings, s: State, event: Event)
    requires event.StartCollection? && forall k :: 0 <= k < |event.listed| ==> Collectable(p, s, event.listed[k])
    ensures forall k :: 0 <= k < |event.listed| ==> event.listed[k] in s.blobs
    ensures ProgramOf(p, s, event) == Some(Request(Housekeeping, CollectionProgram(s, event.listed)))
  {
    hide Referenced, Awaited, CollectionProgram;
  }

  lemma CollectionGoesOn(s: State, listed: seq<Digest>, i: nat)
    requires (forall k :: 0 <= k < |listed| ==> listed[k] in s.blobs) && i < |listed|
    ensures CollectionProgram(s, listed[i..])
         == [CollectRow(CandidateOf(s, listed[i]), s.now)] + CollectionProgram(s, listed[i + 1..])
  {
    assert listed[i..][1..] == listed[i + 1..];
  }

  lemma NothingToCollect(s: State, listed: seq<Digest>)
    requires forall k :: 0 <= k < |listed| ==> listed[k] in s.blobs
    ensures CollectionProgram(s, listed[|listed|..]) == []
  {
  }

  /** Whether a row may go depends on itself, the builds, the sessions and the clock. */
  lemma CollectableDepends(p: Settings, s: State, t: State, h: Digest)
    requires s.builds == t.builds && s.sessions == t.sessions && s.now == t.now
    requires h in s.blobs && h in t.blobs && s.blobs[h] == t.blobs[h]
    ensures Collectable(p, s, h) <==> Collectable(p, t, h)
  {
    assert Referenced(s, h) == Referenced(t, h);
    assert Awaited(s, h) == Awaited(t, h);
  }

  /** How far a pass has got: what it came past is gone, what is to come is as it was listed. */
  ghost predicate Passed(s: State, listed: seq<Digest>, i: nat, blobs: map<Digest, BlobRow>, stored: map<Digest, Content>) {
    && i <= |listed|
    && (forall h <- blobs :: h in s.blobs && blobs[h] == s.blobs[h])
    && (forall k :: 0 <= k < i ==> listed[k] !in blobs && listed[k] !in stored)
    && (forall k :: i <= k < |listed| && listed[k] !in blobs ==> exists j :: 0 <= j < i && listed[j] == listed[k])
  }

  lemma NothingPassedYet(s: State, listed: seq<Digest>, stored: map<Digest, Content>)
    requires forall k :: 0 <= k < |listed| ==> listed[k] in s.blobs
    ensures Passed(s, listed, 0, s.blobs, stored)
  {
  }

  lemma PassedOneMore(s: State, listed: seq<Digest>, i: nat, blobs: map<Digest, BlobRow>, stored: map<Digest, Content>)
    requires i < |listed| && Passed(s, listed, i, blobs, stored)
    ensures listed[i] in blobs ==> Passed(s, listed, i + 1, blobs - {listed[i]}, stored - {listed[i]})
    ensures listed[i] !in blobs ==> Passed(s, listed, i + 1, blobs, stored) && !NoneTwice(listed)
  {
    if listed[i] !in blobs {
      var j :| 0 <= j < i && listed[j] == listed[i];
    }
  }

  lemma AllPassed(s: State, listed: seq<Digest>, blobs: map<Digest, BlobRow>, stored: map<Digest, Content>)
    requires Passed(s, listed, |listed|, blobs, stored)
    ensures forall h <- listed :: h !in blobs && h !in stored
  {
  }

  /** What is still there is collectable still, and nothing else is. */
  lemma NextIsCollectableIfThere(p: Settings, s: State, t: State, listed: seq<Digest>, i: nat)
    requires i < |listed| && Passed(s, listed, i, t.blobs, t.stored) && Collectable(p, s, listed[i])
    requires s.builds == t.builds && s.sessions == t.sessions && s.now == t.now
    ensures Collectable(p, t, listed[i]) <==> listed[i] in t.blobs
  {
    hide Collectable;
    CollectableIsThere(p, s, listed[i]);
    if listed[i] in t.blobs {
      CollectableDepends(p, s, t, listed[i]);
    } else {
      CollectableIsThere(p, t, listed[i]);
    }
  }

  class RetentionService {
    const backend: Backend
    const p: Settings

    constructor (backend: Backend)
      ensures this.backend == backend && p == backend.p
    {
      this.backend := backend;
      p := backend.p;
    }

    ghost predicate Valid()
      reads this, backend, backend.store
    {
      backend.Valid() && backend.p == p
    }

    ghost predicate Underway(before: seq<Event>, event: Event, program: seq<Action>)
      requires StartsRequest(event)
      reads this, backend, backend.store
    {
      && Valid() && Extends(before, event, backend.trace)
      && event.request in backend.requests && backend.requests[event.request].program == program
    }

    /** One candidate: the row goes first, and the file and the refund only follow if it went. */
    method CollectOne(blob: CollectableBlob, ghost listedAt: int, ghost before: seq<Event>, ghost event: Event,
                      ghost rest: seq<Action>) returns (deleted: bool)
      requires StartsRequest(event) && Underway(before, event, [CollectRow(blob, listedAt)] + rest)
      modifies backend`blobs, backend`accounts, backend`requests, backend`trace, backend.store
      ensures Underway(before, event, rest)
      ensures deleted == Collectable(p, old(backend.Snapshot()), blob.sha256)
      ensures backend.blobs == if deleted then old(backend.blobs) - {blob.sha256} else old(backend.blobs)
      ensures backend.store.stored == if deleted then old(backend.store.stored) - {blob.sha256} else old(backend.store.stored)
    {
      hide Extends, Run, Collectable, Backend.Snapshot;
      ExtendsByStep(before, event, backend.trace, Works);
      deleted := backend.DeleteIfUnreferenced(blob, listedAt, event.request);
      FirstCallThen(CollectRow(blob, listedAt), AfterCollect(blob, deleted), rest);
      if !deleted {
        assert [] + rest == rest;
        return;
      }
      RemoveFileAndRefund(blob, before, event, rest);
    }

    method RemoveFileAndRefund(blob: CollectableBlob, ghost before: seq<Event>, ghost event: Event, ghost rest: seq<Action>)
      requires StartsRequest(event) && Underway(before, event, AfterCollect(blob, true) + rest)
      modifies backend`accounts, backend`requests, backend`trace, backend.store
      ensures Underway(before, event, rest)
      ensures backend.store.stored == old(backend.store.stored) - {blob.sha256}
    {
      hide Extends, Run, Backend.Snapshot, AfterCollect;
      ghost var refund := RefundOf(blob);
      FileThenRefund(blob, rest);
      ExtendsByStep(before, event, backend.trace, Works);
      backend.RemoveBlobFile(blob.sha256, event.request);
      FirstCall(DiscardBlob(blob.sha256), refund + rest);
      Refund(blob, before, event, rest);
    }

    method Refund(blob: CollectableBlob, ghost before: seq<Event>, ghost event: Event, ghost rest: seq<Action>)
      requires StartsRequest(event) && Underway(before, event, RefundOf(blob) + rest)
      modifies backend`accounts, backend`requests, backend`trace
      ensures Underway(before, event, rest)
    {
      hide Extends, Run, Backend.Snapshot;
      if blob.uploadedBy != "" {
        ExtendsByStep(before, event, backend.trace, Works);
        backend.ReleaseUpload(blob.uploadedBy, blob.sizeBytes, event.request);
        FirstCall(Release(blob.uploadedBy, blob.sizeBytes), rest);
      } else {
        assert [] + rest == rest;
      }
    }

    /**
     `collectUnreferencedBlobs` over what one `findUnreferenced` returned. Left alone, a pass leaves
     neither row nor file of anything it listed, and reclaims exactly the bytes it listed.
     */
    method CollectUnreferencedBlobs(listed: seq<Digest>, ghost r: RequestId) returns (report: SweepReport)
      requires Valid() && r !in backend.requests
      requires forall k :: 0 <= k < |listed| ==> Collectable(p, backend.Snapshot(), listed[k])
      modifies backend, backend.store
      ensures Underway(old(backend.trace), StartCollection(r, listed), [])
      ensures report.collected + report.skipped == |listed|
      ensures forall h <- listed :: h in old(backend.blobs) && h !in backend.blobs && h !in backend.store.stored
      ensures NoneTwice(listed) ==>
                report.skipped == 0 && report.reclaimedBytes == ListedBytes(old(backend.Snapshot()), listed)
      ensures old(backend.Quiet()) ==> backend.Quiet()
    {
      hide Run, Extends, Collectable, CollectionProgram, OneAtATime, Idle;
      ghost var s := backend.Snapshot();
      ghost var before, event := backend.trace, StartCollection(r, listed);
      CollectionStarts(p, s, event);
      backend.Begin(event);
      ExtendsByStart(before, event);
      report := CollectAll(s, listed, before, event);
      if old(backend.Quiet()) {
        backend.StaysQuiet(before, event);
      }
    }

    /** Nothing the collector's condition looks at has changed since the listing, except rows it deleted. */
    ghost predicate Undisturbed(s: State)
      reads backend
    {
      backend.builds == s.builds && backend.sessions == s.sessions && backend.now == s.now
    }

    method CollectNext(ghost s: State, ghost listed: seq<Digest>, ghost i: nat, candidate: CollectableBlob,
                       ghost before: seq<Event>, ghost event: Event) returns (deleted: bool)
      requires StartsRequest(event) && i < |listed|
      requires forall k :: 0 <= k < |listed| ==> listed[k] in s.blobs && Collectable(p, s, listed[k])
      requires Underway(before, event, CollectionProgram(s, listed[i..])) && Undisturbed(s)
      requires Passed(s, listed, i, backend.blobs, backend.store.stored)
      requires candidate == CandidateOf(s, listed[i])
      modifies backend`blobs, backend`accounts, backend`requests, backend`trace, backend.store
      ensures Underway(before, event, CollectionProgram(s, listed[i + 1..]))
      ensures Passed(s, listed, i + 1, backend.blobs, backend.store.stored)
      ensures NoneTwice(listed) ==> deleted
    {
      hide RetentionService.Underway, Collectable, CollectionProgram, Passed, NoneTwice;
      CollectionGoesOn(s, listed, i);
      NextIsCollectableIfThere(p, s, backend.Snapshot(), listed, i);
      PassedOneMore(s, listed, i, backend.blobs, backend.store.stored);
      deleted := CollectOne(candidate, s.now, before, event, CollectionProgram(s, listed[i + 1..]));
    }

    method CollectAll(ghost s: State, listed: seq<Digest>, ghost before: seq<Event>, ghost event: Event)
      returns (report: SweepReport)
      requires StartsRequest(event) && s.blobs == backend.blobs && Undisturbed(s)
      requires forall k :: 0 <= k < |listed| ==> listed[k] in s.blobs && Collectable(p, s, listed[k])
      requires Underway(before, event, CollectionProgram(s, listed))
      modifies backend`blobs, backend`accounts, backend`requests, backend`trace, backend.store
      ensures Underway(before, event, [])
      ensures report.collected + report.skipped == |listed|
      ensures forall h <- listed :: h !in backend.blobs && h !in backend.store.stored
      ensures NoneTwice(listed) ==> report.skipped == 0 && report.reclaimedBytes == ListedBytes(s, listed)
    {
      hide RetentionService.Underway, Collectable, CollectionProgram, Passed, Tallies, NoneTwice, ListedBytes;
      var candidates := Candidates(listed, s);
      report := SweepReport(0, 0, 0);
      NothingTallied(s, listed);
      NothingPassedYet(s, listed, backend.store.stored);
      var i := 0;
      assert listed[0..] == listed;
      while i < |candidates|
        invariant 0 <= i <= |candidates| == |listed| && Tallies(report, s, listed, i)
        invariant Underway(before, event, CollectionProgram(s, listed[i..]))
        invariant Passed(s, listed, i, backend.blobs, backend.store.stored)
        modifies backend`blobs, backend`accounts, backend`requests, backend`trace, backend.store
      {
        var deleted := CollectNext(s, listed, i, candidates[i], before, event);
        TallyGrows(report, s, listed, i, deleted);
        report := if deleted
                  then SweepReport(report.collected + 1, report.skipped, report.reclaimedBytes + candidates[i].sizeBytes)
                  else report.(skipped := report.skipped + 1);
        i := i + 1;
      }
      NothingToCollect(s, listed);
      TallyOfAll(report, s, listed);
      AllPassed(s, listed, backend.blobs, backend.store.stored);
    }

    /** The rows of the listing, as the repository maps them. */
    method Candidates(listed: seq<Digest>, ghost s: State) returns (candidates: seq<CollectableBlob>)
      requires forall k :: 0 <= k < |listed| ==> listed[k] in s.blobs
      requires s.blobs == backend.blobs
      ensures |candidates| == |listed| && forall k :: 0 <= k < |listed| ==> candidates[k] == CandidateOf(s, listed[k])
    {
      candidates := [];
      var i := 0;
      while i < |listed|
        invariant 0 <= i <= |listed| && |candidates| == i
        invariant forall k :: 0 <= k < i ==> candidates[k] == CandidateOf(s, listed[k])
      {
        var row := backend.blobs[listed[i]];
        candidates := candidates + [CollectableBlob(listed[i], row.sizeBytes, row.uploadedBy)];
        i := i + 1;
      }
    }
  }

  /** Nobody is refunded for a blob nobody is known to have uploaded. */
  function RefundOf(blob: CollectableBlob): seq<Action> {
    if blob.uploadedBy == "" then [] else [Release(blob.uploadedBy, blob.sizeBytes)]
  }

  lemma FileThenRefund(blob: CollectableBlob, rest: seq<Action>)
    ensures AfterCollect(blob, true) + rest == [DiscardBlob(blob.sha256)] + (RefundOf(blob) + rest)
  {
  }

  lemma CollectableIsThere(p: Settings, s: State, h: Digest)
    ensures Collectable(p, s, h) ==> h in s.blobs
  {
  }

  lemma FirstCallThen(call: Action, next: seq<Action>, rest: seq<Action>)
    ensures next + ([call] + rest)[1..] == next + rest
  {
  }
}
