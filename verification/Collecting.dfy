/** A collector takes what nobody wants, whole, and so takes an upload back. */
module Collecting {
  import opened Manifest
  import opened StagingFile
  import opened BlobStores
  import opened Protocol
  import opened Backends
  import opened Scenarios
  import opened WholeUploads

  /**
   What is older than the grace period, named by no build and awaited by no open session goes with its
   file, and its uploader gets the bytes back.
   */
  lemma TheUnwantedGoes(p: Settings, s: State, r: RequestId, h: Digest) returns (trace: seq<Event>, t: State)
    requires OldAndUnwanted(p, s, h) && r !in s.requests && s.blobs[h].uploadedBy != ""
    ensures Run(p, s, trace) == t
    ensures t == s.(blobs := s.blobs - {h}, stored := s.stored - {h}, requests := t.requests,
                    accounts := UsageSubtracted(s.accounts, s.blobs[h].uploadedBy, s.blobs[h].sizeBytes))
    ensures OthersAsBefore(s, t, r) && t.requests[r].program == []
  {
    hide Run, Stepped, UsageSubtracted;
    var row := s.blobs[h];
    var s1 := RowIsListed(p, s, r, h);
    OnlyRequestsMoved(p, s, s1, h);
    var s2 := RowGoes(p, s1, r, ListingOf(s, h), s.now);
    Then(p, s, [StartCollection(r, [h])], s1, [Step(r, Works)], s2);
    assert Calls(s2.requests, r, DiscardBlob(h));
    RemovalStep(p, s2, r, DiscardBlob(h));
    JustOneStep(p, s2, r);
    MovedProgram(s2.requests, r, []);
    var s3 := Stepped(p, s2, r, Works);
    Then(p, s, [StartCollection(r, [h])] + [Step(r, Works)], s2, [Step(r, Works)], s3);
    assert Calls(s3.requests, r, Release(row.uploadedBy, row.sizeBytes));
    ReleaseStep(p, s3, r, row.uploadedBy, row.sizeBytes);
    JustOneStep(p, s3, r);
    MovedProgram(s3.requests, r, []);
    t := Stepped(p, s3, r, Works);
    trace := [StartCollection(r, [h])] + [Step(r, Works)] + [Step(r, Works)] + [Step(r, Works)];
    Then(p, s, [StartCollection(r, [h])] + [Step(r, Works)] + [Step(r, Works)], s3, [Step(r, Works)], t);
  }

  lemma OnlyRequestsMoved(p: Settings, s: State, t: State, h: Digest)
    requires OldAndUnwanted(p, s, h) && t == s.(requests := t.requests)
    ensures OldAndUnwanted(p, t, h)
  {
  }

  /** The digest is of no build and nobody else is uploading it. */
  ghost predicate NobodyElseWants(s: State, id: SessionId, sha256: Digest) {
    && (forall b <- s.builds :: forall k :: 0 <= k < |s.builds[b].files| ==> s.builds[b].files[k].blobSha256 != sha256)
    && (forall other <- s.sessions :: other != id && s.sessions[other].status == Pending ==>
          s.sessions[other].blobSha256 != sha256)
  }

  lemma UploadsGetOldAndUnwanted(p: Settings, s: State, t: State, user: UserId, id: SessionId, content: Content, now: int)
    requires id in s.sessions && user in s.accounts && Uploaded(s, t, user, id, content)
    requires NobodyElseWants(s, id, s.sessions[id].blobSha256) && t.now + p.graceSeconds < now
    ensures OldAndUnwanted(p, t.(now := now), s.sessions[id].blobSha256)
  {
  }

  /** An upload nobody makes use of is collected after the grace period, and leaves accounts, rows and files as they were. */
  lemma CollectingUndoesAnUpload(p: Settings, s: State, t: State, user: UserId, id: SessionId, content: Content, now: int,
                                 r: RequestId) returns (trace: seq<Event>, u: State)
    requires id in s.sessions && user in s.accounts && user != "" && Uploaded(s, t, user, id, content)
    requires s.sessions[id].blobSha256 !in s.blobs && s.sessions[id].blobSha256 !in s.stored
    requires s.accounts[user].usedBytes >= 0 && NobodyElseWants(s, id, s.sessions[id].blobSha256)
    requires t.now + p.graceSeconds < now && r !in t.requests
    ensures Run(p, t.(now := now), trace) == u
    ensures u.accounts == s.accounts && u.blobs == s.blobs && u.stored == s.stored && u.builds == s.builds
    ensures u.sessions == t.sessions && u.staging == t.staging
  {
    hide Run, OldAndUnwanted;
    var h := s.sessions[id].blobSha256;
    UploadsGetOldAndUnwanted(p, s, t, user, id, content, now);
    trace, u := TheUnwantedGoes(p, t.(now := now), r, h);
    assert t.blobs - {h} == s.blobs;
    assert t.stored - {h} == s.stored;
    assert u.accounts == s.accounts;
  }
}
