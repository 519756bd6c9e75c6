/**
 The run that ends with a recorded row and no file: between a collector's two calls for a digest,
 the same content is uploaded again. It shows that the exclusion `Lifecycle` asks for is needed.
 */
module LostFile {
  import opened Manifest
  import opened StagingFile
  import opened Protocol
  import opened Backends
  import opened Lifecycle
  import opened Scenarios

  /** Uploading, waiting out the grace period, and a collector that has deleted the row but not the file. */
  lemma CollectedHalfway(p: Settings, s: State, user: UserId, content: Content) returns (trace: seq<Event>, t: State)
    requires Initial(s) && Uploadable(p, s, user, content)
    ensures Run(p, s, trace) == t
    ensures t.blobs == map[] && t.accounts == UsageAdded(s.accounts, user, |content|)
    ensures OnlyAnEmptyBuild(t) && NothingPending(t) && t.sessions.Keys == {"1"}
    ensures t.staging == map[] && t.accepted.Keys == {"1"} && t.requests.Keys == {0, 1}
    ensures Calls(t.requests, 1, DiscardBlob(p.sha256(content)))
  {
    hide Run, IsSha256Hex, UsageAdded;
    var h, wait := p.sha256(content), p.graceSeconds + 1;
    var first, s1 := FirstUpload(p, s, user, content);
    TimePasses(p, s1, wait);
    var s2 := s1.(now := s1.now + wait);
    Then(p, s, first, s1, [Tick(wait)], s2);
    var s3 := RowIsListed(p, s2, 1, h);
    Then(p, s, first + [Tick(wait)], s2, [StartCollection(1, [h])], s3);
    t := RowGoes(p, s3, 1, ListingOf(s2, h), s2.now);
    trace := first + [Tick(wait)] + [StartCollection(1, [h])] + [Step(1, Works)];
    Then(p, s, first + [Tick(wait)] + [StartCollection(1, [h])], s3, [Step(1, Works)], t);
    KeysBut(s3.requests, s2.requests, 1);
    KeysBut(t.requests, s3.requests, 1);
  }

  /**
   From empty accounts: upload, wait out the grace period, let the collector delete the row, upload
   the same content again, and let the collector go on. The row is there and the file is not.
   */
  lemma ReuploadDuringCollectionLosesTheFile(p: Settings, s: State, user: UserId, content: Content)
    returns (trace: seq<Event>)
    requires Initial(s) && Uploadable(p, s, user, content) && 2 * |content| <= s.accounts[user].quotaBytes
    ensures var t := Run(p, s, trace); p.sha256(content) in t.blobs && p.sha256(content) !in t.stored
    ensures !RowsAreBacked(Run(p, s, trace))
  {
    hide Run, IsSha256Hex, Stepped;
    var h := p.sha256(content);
    var opening, s1 := CollectedHalfway(p, s, user, content);
    var begin := BeginUpload("2", BUILD, user, h, |content|, 1);
    var s2 := SessionOpens(p, s1, "2", user, h, |content|);
    Then(p, s, opening, s1, [begin], s2);
    var again, s3 := UploadLands(p, s2, 2, "2", user, content);
    Then(p, s, opening + [begin], s2, again, s3);
    StillDoes(s2, s3, 2, 1);
    RemovalStep(p, s3, 1, DiscardBlob(h));
    JustOneStep(p, s3, 1);
    trace := opening + [begin] + again + [Step(1, Works)];
    Then(p, s, opening + [begin] + again, s3, [Step(1, Works)], Stepped(p, s3, 1, Works));
  }
}
