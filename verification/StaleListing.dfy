/**
 The run that bills a user for bytes nobody stores: a collector lists a row and outlasts the grace
 period; meanwhile another pass collects it, and somebody else uploads the content anew. The refund
 goes to whom the listing names. It shows that the timeliness `Quota` asks for is needed.
 */
module StaleListing {
  import opened Sums
  import opened Manifest
  import opened StagingFile
  import opened Protocol
  import opened Backends
  import opened Quota
  import opened Scenarios

  /** After the first upload two passes list its row, 9 and 1, and pass 1 deletes it. */
  lemma ListedTwiceCollectedOnce(p: Settings, s: State, user: UserId, content: Content)
    returns (trace: seq<Event>, t: State)
    requires Initial(s) && Uploadable(p, s, user, content)
    ensures Run(p, s, trace) == t
    ensures t.blobs == map[] && t.leaked == map[] && t.accounts == UsageAdded(s.accounts, user, |content|)
    ensures OnlyAnEmptyBuild(t) && NothingPending(t) && t.sessions.Keys == {"1"}
    ensures t.staging == map[] && t.accepted.Keys == {"1"} && t.requests.Keys == {0, 1, 9}
    ensures t.requests[0].program == []
    ensures t.requests[1].program == [DiscardBlob(p.sha256(content)), Release(user, |content|)]
    ensures exists at :: Does(t, 9, CollectRow(CollectableBlob(p.sha256(content), |content|, user), at))
  {
    hide Run, IsSha256Hex, UsageAdded;
    var h, wait := p.sha256(content), p.graceSeconds + 1;
    var first, s1 := FirstUpload(p, s, user, content);
    TimePasses(p, s1, wait);
    var s2 := s1.(now := s1.now + wait);
    Then(p, s, first, s1, [Tick(wait)], s2);
    var s3 := RowIsListed(p, s2, 9, h);
    Then(p, s, first + [Tick(wait)], s2, [StartCollection(9, [h])], s3);
    KeysBut(s3.requests, s2.requests, 9);
    var s4 := RowIsListed(p, s3, 1, h);
    Then(p, s, first + [Tick(wait)] + [StartCollection(9, [h])], s3, [StartCollection(1, [h])], s4);
    t := RowGoes(p, s4, 1, ListingOf(s2, h), s2.now);
    trace := first + [Tick(wait)] + [StartCollection(9, [h])] + [StartCollection(1, [h])] + [Step(1, Works)];
    Then(p, s, first + [Tick(wait)] + [StartCollection(9, [h])] + [StartCollection(1, [h])], s4, [Step(1, Works)], t);
    KeysBut(s4.requests, s3.requests, 1);
    KeysBut(t.requests, s4.requests, 1);
    StillDoes(s2, s3, 9, 0);
    StillDoes(s3, s4, 1, 0);
    StillDoes(s3, s4, 1, 9);
    StillDoes(s4, t, 1, 0);
    StillDoes(s4, t, 1, 9);
    assert Does(t, 9, CollectRow(ListingOf(s2, h), s2.now));
  }

  /** Somebody else's account is charged, nothing is recorded, and nothing will be given back. */
  ghost predicate BilledForNothing(s: State, user: UserId, bytes: nat) {
    && user in s.accounts && s.accounts[user].usedBytes == bytes && s.blobs == map[]
    && forall r <- s.requests :: HeldBy(s.requests[r].program, user) == 0
  }

  lemma BillingForNothingUnbalances(s: State, user: UserId, bytes: nat)
    requires BilledForNothing(s, user, bytes) && bytes > 0 && s.leaked == map[]
    ensures !Conserved(s)
  {
    var held := map r | r in s.requests :: HeldBy(s.requests[r].program, user);
    TotalOfZeros(held);
    assert RowBytes(s, user) == 0;
    assert !Balanced(s, user);
  }

  /**
   From empty accounts: A uploads, the grace period passes, pass 9 lists the row and stalls, pass 1
   collects it, B uploads the same content, the grace period passes again, and pass 9 goes on. It
   deletes B's row and refunds A.
   */
  lemma StaleListingRefundsTheWrongUser(p: Settings, s: State, a: UserId, b: UserId, content: Content)
    returns (trace: seq<Event>)
    requires Initial(s) && a != b && |content| > 0
    requires Uploadable(p, s, a, content) && Uploadable(p, s, b, content)
    ensures BilledForNothing(Run(p, s, trace), b, |content|)
    ensures !Conserved(Run(p, s, trace))
  {
    hide Run, IsSha256Hex, Conserved;
    var h, wait := p.sha256(content), p.graceSeconds + 1;
    var opening, s1 := ListedTwiceCollectedOnce(p, s, a, content);
    var listing := CollectableBlob(h, |content|, a);
    var at :| Does(s1, 9, CollectRow(listing, at));
    var begin := BeginUpload("2", BUILD, b, h, |content|, 1);
    var s2 := SessionOpens(p, s1, "2", b, h, |content|);
    Then(p, s, opening, s1, [begin], s2);
    var again, s3 := UploadLands(p, s2, 2, "2", b, content);
    Then(p, s, opening + [begin], s2, again, s3);
    TimePasses(p, s3, wait);
    var s4 := s3.(now := s3.now + wait);
    Then(p, s, opening + [begin] + again, s3, [Tick(wait)], s4);
    KeysBut(s3.requests, s2.requests, 2);
    StillDoes(s2, s3, 2, 0);
    StillDoes(s2, s3, 2, 1);
    StillDoes(s2, s3, 2, 9);
    var t := RowGoes(p, s4, 9, listing, at);
    trace := opening + [begin] + again + [Tick(wait)] + [Step(9, Works)];
    Then(p, s, opening + [begin] + again + [Tick(wait)], s4, [Step(9, Works)], t);
    NothingIsOwed(s4, t, listing, b);
    BillingForNothingUnbalances(t, b, |content|);
  }

  lemma NothingIsOwed(s: State, t: State, listing: CollectableBlob, user: UserId)
    requires s.requests.Keys == {0, 1, 2, 9} && OthersAsBefore(s, t, 9) && listing.uploadedBy != user
    requires s.requests[0].program == [] && s.requests[2].program == []
    requires s.requests[1].program == [DiscardBlob(listing.sha256), Release(listing.uploadedBy, listing.sizeBytes)]
    requires t.requests[9].program == [DiscardBlob(listing.sha256), Release(listing.uploadedBy, listing.sizeBytes)]
    ensures forall r <- t.requests :: HeldBy(t.requests[r].program, user) == 0
  {
    KeysBut(t.requests, s.requests, 9);
    HeldByFew(DiscardBlob(listing.sha256), Release(listing.uploadedBy, listing.sizeBytes), user);
    forall r <- t.requests
      ensures HeldBy(t.requests[r].program, user) == 0
    {
      if r != 9 {
        StillDoes(s, t, 9, r);
      }
    }
  }
}
