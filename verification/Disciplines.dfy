/**
 One request at a time keeps every discipline the guarantees ask for: collections are timely and
 exclude uploads of the same digest, finalizations find the sizes they read, and the chunks of a
 session come one after another.
 */
module Disciplines {
  import opened Manifest
  import opened Text
  import opened StagingFile
  import opened Protocol
  import opened Frames
  import opened Uninterrupted
  import opened Quota
  import opened SerialUploads
  import opened Lifecycle
  import opened ManifestAgreement

  predicate IsCollection(action: Action) {
    action.CollectRow? || action.DiscardBlob? || action.Release?
  }

  predicate IsFinalization(action: Action) {
    action.ReadSizes? || action.Finalize?
  }

  /** A program is a collection, or a finalization of one call, or neither. */
  ghost predicate OfOneKind(program: seq<Action>) {
    || (forall action <- program :: IsCollection(action))
    || (|program| == 1 && IsFinalization(program[0]))
    || (forall action <- program :: !action.CollectRow? && !action.DiscardBlob? && !IsFinalization(action))
  }

  /** What was listed was listed now, and the sizes that were read still hold. */
  ghost predicate IsCurrent(s: State, action: Action) {
    (action.CollectRow? ==> action.listedAt == s.now) && (action.Finalize? ==> SizesStillHold(s, action.entries))
  }

  ghost predicate Tame(s: State, program: seq<Action>) {
    OfOneKind(program) && forall action <- program :: IsCurrent(s, action)
  }

  predicate IsBusy(s: State, r: RequestId) {
    r in s.requests && s.requests[r].program != []
  }

  /** At most one request is under way, and it is tame. */
  ghost predicate Orderly(s: State) {
    && (forall q, r :: IsBusy(s, q) && IsBusy(s, r) ==> q == r)
    && forall r <- s.requests :: Tame(s, s.requests[r].program)
  }

  // ---------------------------------------------------------------------------
  // Events keep it so
  // ---------------------------------------------------------------------------

  lemma StoredSizesHold(s: State, entries: seq<ManifestEntry>)
    requires AllRecorded(s, entries)
    ensures SizesStillHold(s, WithStoredSizes(s, entries))
  {
  }

  lemma FinalizationGoesOn(p: Settings, s: State, action: Action, io: Io)
    requires IsFinalization(action)
    ensures Tame(Execute(p, s, action, io).state, Execute(p, s, action, io).next)
  {
    hide SizesStillHold, WithStoredSizes;
    FinalizeCallsExecuted(p, s, action, io);
    if action.ReadSizes? && AllRecorded(s, action.entries) {
      StoredSizesHold(s, action.entries);
    }
  }

  lemma CollectionNextKind(p: Settings, s: State, action: Action, io: Io)
    requires IsCollection(action)
    ensures forall next <- Execute(p, s, action, io).next :: IsCollection(next) && !next.CollectRow?
  {
    hide Collectable, ExecuteReserve, ExecuteWrite, ExecuteCheckRow, ExecuteCharge, ExecuteCommit, ExecuteRecord;
    hide WithStatus, WithoutStaging, ExecuteReadSizes, ExecuteFinalize, Released;
  }

  lemma UploadNextKind(p: Settings, s: State, action: Action, io: Io)
    requires !action.CollectRow? && !action.DiscardBlob? && !IsFinalization(action)
    ensures forall next <- Execute(p, s, action, io).next ::
              !next.CollectRow? && !next.DiscardBlob? && !IsFinalization(next)
  {
    hide StagingFile.WriteAt, IsSha256Hex, Collectable, ExecuteReadSizes, ExecuteFinalize, Released;
  }

  lemma StepKeepsTame(p: Settings, s: State, r: RequestId, io: Io)
    requires r in s.requests && s.requests[r].program != [] && Tame(s, s.requests[r].program)
    ensures Tame(Stepped(p, s, r, io), Stepped(p, s, r, io).requests[r].program)
  {
    hide Execute, SizesStillHold;
    var program := s.requests[r].program;
    var head, tail, t := program[0], program[1..], Stepped(p, s, r, io);
    var outcome := Execute(p, s, head, io);
    ExecuteFrame(p, s, head, io);
    assert forall action <- tail :: action in program;
    if IsFinalization(head) {
      FinalizationGoesOn(p, s, head, io);
      assert program == [head];
      assert tail == [];
      assert outcome.next + tail == outcome.next;
      SameRowsSameSizes(outcome.state, t, outcome.next);
    } else if forall action <- program :: IsCollection(action) {
      CollectionNextKind(p, s, head, io);
    } else {
      UploadNextKind(p, s, head, io);
    }
  }

  lemma SameRowsSameSizes(s: State, t: State, program: seq<Action>)
    requires Tame(s, program) && s.blobs == t.blobs && s.now == t.now
    ensures Tame(t, program)
  {
  }

  lemma EmptyIsTame(s: State)
    ensures Tame(s, [])
  {
  }

  lemma OthersRest(s: State, r: RequestId)
    requires Orderly(s) && IsBusy(s, r)
    ensures forall q <- s.requests :: q != r ==> s.requests[q].program == []
  {
    assert forall q <- s.requests :: q != r ==> !IsBusy(s, q);
  }

  lemma StepKeepsOrderly(p: Settings, s: State, r: RequestId, io: Io)
    requires Orderly(s) && r in s.requests && s.requests[r].program != []
    ensures Orderly(Stepped(p, s, r, io))
  {
    hide Tame, Execute;
    var t := Stepped(p, s, r, io);
    ExecuteFrame(p, s, s.requests[r].program[0], io);
    StepKeepsTame(p, s, r, io);
    EmptyIsTame(t);
    OthersRest(s, r);
    assert forall q <- t.requests :: q != r ==> t.requests[q] == s.requests[q];
  }

  lemma NewProgramIsTame(p: Settings, s: State, event: Event)
    requires !event.Step? && Idle(s.requests)
    ensures var t := Apply(p, s, event);
            forall r <- t.requests :: r !in s.requests ==> Tame(t, t.requests[r].program)
  {
    hide Apply, Tame;
    var t := Apply(p, s, event);
    OtherEventFrame(p, s, event);
    if StartsRequest(event) && event.request !in s.requests && event.request in t.requests {
      var program := t.requests[event.request].program;
      forall action <- program
        ensures NewCall(t, event, action)
      {
        assert Outstanding(t, action) && !Outstanding(s, action);
        OutstandingAfterOther(p, s, event, action);
      }
      NewCallsAreTame(t, event, program);
      if event.StartFinalize? {
        OneCallToFinalize(p, s, event);
      }
    }
  }

  /** What a new request can set out with. */
  ghost predicate NewCall(s: State, event: Event, action: Action) {
    || (event.StartCollection? && action.CollectRow? && action.listedAt == s.now)
    || (event.StartFinalize? && action.ReadSizes?)
    || (!event.StartCollection? && !event.StartFinalize? && !IsCollection(action) && !IsFinalization(action))
  }

  lemma NewCallsAreTame(s: State, event: Event, program: seq<Action>)
    requires forall action <- program :: NewCall(s, event, action)
    ensures !event.StartFinalize? || |program| == 1 ==> Tame(s, program)
  {
    hide SizesStillHold;
    if event.StartFinalize? && |program| == 1 {
      assert program[0] in program;
    }
  }

  lemma OneCallToFinalize(p: Settings, s: State, event: Event)
    requires event.StartFinalize? && event.request !in s.requests && event.request in Apply(p, s, event).requests
    ensures |Apply(p, s, event).requests[event.request].program| == 1
  {
    hide MayFinalize, Trim;
  }

  lemma OtherEventKeepsOrderly(p: Settings, s: State, event: Event)
    requires Orderly(s) && Alone(s, event) && !event.Step?
    ensures Orderly(Apply(p, s, event))
  {
    hide Apply, Tame;
    var t := Apply(p, s, event);
    OtherEventFrame(p, s, event);
    NewProgramIsTame(p, s, event);
    EmptyIsTame(t);
    assert forall q <- t.requests :: q in s.requests ==> t.requests[q].program == [];
  }

  lemma EventKeepsOrderly(p: Settings, s: State, event: Event)
    requires Orderly(s) && Alone(s, event)
    ensures Orderly(Apply(p, s, event))
  {
    hide Apply, Orderly, Alone;
    if event.Step? {
      StepFrame(p, s, event);
      if Apply(p, s, event) != s {
        StepKeepsOrderly(p, s, event.request, event.io);
      }
    } else {
      OtherEventKeepsOrderly(p, s, event);
    }
  }

  // ---------------------------------------------------------------------------
  // The disciplines
  // ---------------------------------------------------------------------------

  lemma HeadOfTame(s: State, program: seq<Action>)
    requires Tame(s, program) && program != []
    ensures IsCurrent(s, program[0])
    ensures program[0].CollectRow? ==> forall action <- program :: !action.Record?
    ensures program[0].Commit? ==> forall action <- program :: !action.DiscardBlob?
  {
    hide IsCurrent;
    assert program[0] in program;
  }

  /** In a state like this, an event of a run of one request at a time keeps all four. */
  lemma AloneKeepsTheDisciplines(p: Settings, s: State, event: Event)
    requires Orderly(s) && Alone(s, event)
    ensures Timely(p, s, event) && Exclusive(p, s, event) && Settled(s, event) && SerialEvent(s, event)
  {
    hide Tame, SizesStillHold;
    if event.Step? && event.request in s.requests && s.requests[event.request].program != [] {
      HeadOfTame(s, s.requests[event.request].program);
      OthersRest(s, event.request);
    }
  }

  /** A run of one request at a time is timely, exclusive, settled and serial. */
  lemma {:induction false} OneAtATimeKeepsTheDisciplines(p: Settings, s: State, events: seq<Event>)
    requires Orderly(s) && OneAtATime(p, s, events)
    ensures TimelyRun(p, s, events) && ExclusiveRun(p, s, events)
    ensures SettledRun(p, s, events) && SerialRun(p, s, events)
    decreases |events|
  {
    hide Apply, Orderly, Alone, Timely, Exclusive, Settled, SerialEvent;
    if events != [] {
      AloneKeepsTheDisciplines(p, s, events[0]);
      EventKeepsOrderly(p, s, events[0]);
      OneAtATimeKeepsTheDisciplines(p, Apply(p, s, events[0]), events[1..]);
    }
  }
}
