/** Runs in which one request is carried to its end before anything else happens. */
module Uninterrupted {
  import opened StagingFile
  import opened Protocol
  import opened Frames

  ghost predicate Idle(requests: map<RequestId, Request>) {
    forall r <- requests :: requests[r].program == []
  }

  /** Nothing but its own calls happens while a request is under way. */
  ghost predicate Alone(s: State, event: Event) {
    !event.Crash? && (event.Step? || Idle(s.requests))
  }

  ghost predicate OneAtATime(p: Settings, s: State, events: seq<Event>)
    decreases |events|
  {
    events == [] || (Alone(s, events[0]) && OneAtATime(p, Apply(p, s, events[0]), events[1..]))
  }

  lemma {:induction false} OneAtATimeGrows(p: Settings, s: State, events: seq<Event>, event: Event)
    requires OneAtATime(p, s, events) && Alone(Run(p, s, events), event)
    ensures OneAtATime(p, s, events + [event])
    decreases |events|
  {
    hide Apply, Alone;
    if events == [] {
      assert events + [event] == [event];
      assert OneAtATime(p, Apply(p, s, event), [event][1..]);
    } else {
      assert (events + [event])[1..] == events[1..] + [event];
      OneAtATimeGrows(p, Apply(p, s, events[0]), events[1..], event);
    }
  }

  // ---------------------------------------------------------------------------
  // One whole call
  // ---------------------------------------------------------------------------

  /** One event, and then nothing but steps of its request. */
  ghost predicate Extends(before: seq<Event>, event: Event, after: seq<Event>)
    requires StartsRequest(event)
  {
    && |before| < |after| && before + [event] == after[..|before| + 1]
    && forall k :: |before| < k < |after| ==> after[k].Step? && after[k].request == event.request
  }

  lemma ExtendsByStep(before: seq<Event>, event: Event, after: seq<Event>, io: Io)
    requires StartsRequest(event) && Extends(before, event, after)
    ensures Extends(before, event, after + [Step(event.request, io)])
  {
  }

  lemma ExtendsByStart(before: seq<Event>, event: Event)
    requires StartsRequest(event)
    ensures Extends(before, event, before + [event])
  {
  }

  /** What is left once the only call is made, or the first of two. */
  lemma OnlyCall(call: Action, next: seq<Action>)
    ensures next + [call][1..] == next
  {
  }

  lemma FirstCall(call: Action, rest: seq<Action>)
    ensures [] + ([call] + rest)[1..] == rest
  {
  }

  lemma OneCall(call: Action)
    ensures [call] + [] == [call]
  {
  }

  lemma TwoCalls(first: Action, second: Action)
    ensures [first] + ([second] + []) == [first, second]
  {
  }

  /** What a request does changes no other request. */
  ghost predicate OnlyMoved(before: map<RequestId, Request>, after: map<RequestId, Request>, r: RequestId) {
    forall q <- after :: q != r ==> q in before && after[q] == before[q]
  }

  lemma StartMovesOneRequest(p: Settings, s: State, event: Event)
    requires StartsRequest(event)
    ensures OnlyMoved(s.requests, Apply(p, s, event).requests, event.request)
  {
    hide Apply;
    OtherEventFrame(p, s, event);
  }

  lemma StepMovesOneRequest(p: Settings, s: State, event: Event)
    requires event.Step?
    ensures OnlyMoved(s.requests, Apply(p, s, event).requests, event.request)
  {
    hide Apply, Execute;
    StepFrame(p, s, event);
    if event.request in s.requests && s.requests[event.request].program != [] {
      ExecuteFrame(p, s, s.requests[event.request].program[0], event.io);
    }
  }

  /** Adding one whole call leaves the others alone and keeps to one request at a time. */
  lemma {:induction false} CallIsUninterrupted(p: Settings, origin: State, before: seq<Event>, event: Event, after: seq<Event>)
    requires StartsRequest(event) && Extends(before, event, after)
    requires OneAtATime(p, origin, before) && Idle(Run(p, origin, before).requests)
    ensures OneAtATime(p, origin, after)
    ensures OnlyMoved(Run(p, origin, before).requests, Run(p, origin, after).requests, event.request)
    decreases |after|
  {
    hide Apply, OneAtATime, Run, Idle;
    var shorter, last := after[..|after| - 1], after[|after| - 1];
    assert after == shorter + [last];
    if |shorter| == |before| {
      assert shorter == before && last == event;
      StartMovesOneRequest(p, Run(p, origin, before), event);
    } else {
      assert shorter[..|before| + 1] == after[..|before| + 1];
      CallIsUninterrupted(p, origin, before, event, shorter);
      StepMovesOneRequest(p, Run(p, origin, shorter), last);
    }
    OneAtATimeGrows(p, origin, shorter, last);
    OneMore(p, origin, shorter, last);
  }

  lemma OneMore(p: Settings, origin: State, events: seq<Event>, event: Event)
    ensures Run(p, origin, events + [event]) == Apply(p, Run(p, origin, events), event)
  {
    hide Apply;
    RunsCompose(p, origin, events, [event]);
    var s := Run(p, origin, events);
    assert Run(p, s, [event]) == Run(p, Apply(p, s, event), [event][1..]);
  }

  /** A finished call leaves everything idle. */
  lemma FinishedCallLeavesIdle(p: Settings, origin: State, before: seq<Event>, event: Event, after: seq<Event>)
    requires StartsRequest(event) && Extends(before, event, after)
    requires OneAtATime(p, origin, before) && Idle(Run(p, origin, before).requests)
    requires var t := Run(p, origin, after); event.request in t.requests && t.requests[event.request].program == []
    ensures OneAtATime(p, origin, after) && Idle(Run(p, origin, after).requests)
  {
    hide Run, OneAtATime, Extends;
    CallIsUninterrupted(p, origin, before, event, after);
  }
}
