/**
 The token-bucket limiter (`common/RateLimiter.cpp`): an arithmetic bound on what it grants, prunes
 nobody can observe, and an exact `retryAfter`. Times and tokens are reals, and the clock never
 goes back.
 */
module RateLimiting {

  const MINIMUM_CAPACITY: nat := 1

  type Key = string
  type Seconds = real

  datatype Bucket = Bucket(tokens: real, lastRefill: Seconds)

  datatype Limits = Limits(capacity: real, tokensPerSecond: real)

  type Buckets = map<Key, Bucket>

  /** A capacity of at least one, and a window that cannot divide by zero. */
  ghost predicate Sensible(l: Limits) {
    l.capacity >= 1.0 && l.tokensPerSecond > 0.0
  }

  function LimitsFor(capacity: nat, refillWindow: int): (l: Limits)
    ensures Sensible(l)
    ensures capacity >= 1 && refillWindow >= 1 ==>
              l == Limits(capacity as real, capacity as real / refillWindow as real)
  {
    var tokens := (if capacity < MINIMUM_CAPACITY then MINIMUM_CAPACITY else capacity) as real;
    var window := (if refillWindow > 0 then refillWindow else 1) as real;
    Limits(tokens, tokens / window)
  }

  function Min(a: real, b: real): real {
    if a < b then a else b
  }

  /** The tokens that come back in a while. */
  function Dripped(l: Limits, elapsed: Seconds): real {
    elapsed * l.tokensPerSecond
  }

  function Refilled(l: Limits, b: Bucket, now: Seconds): Bucket {
    if now - b.lastRefill > 0.0
    then Bucket(Min(l.capacity, b.tokens + Dripped(l, now - b.lastRefill)), now)
    else b
  }

  /** `std::ceil`. */
  function Ceil(x: real): (n: int)
    ensures n as real - 1.0 < x <= n as real
  {
    if x.Floor as real == x then x.Floor else x.Floor + 1
  }

  // ---------------------------------------------------------------------------
  // Calls
  // ---------------------------------------------------------------------------

  datatype Call = TryAcquire(key: Key) | RetryAfter(key: Key) | Prune

  datatype Answer = Granted(ok: bool) | Wait(seconds: int) | Silent

  function BucketFor(l: Limits, buckets: Buckets, key: Key, now: Seconds): Bucket {
    if key in buckets then Refilled(l, buckets[key], now) else Bucket(l.capacity, now)
  }

  function Acquired(l: Limits, buckets: Buckets, key: Key, now: Seconds): Buckets {
    var bucket := BucketFor(l, buckets, key, now);
    buckets[key := if bucket.tokens < 1.0 then bucket else bucket.(tokens := bucket.tokens - 1.0)]
  }

  function Asked(l: Limits, buckets: Buckets, key: Key, now: Seconds): Buckets {
    if key in buckets then buckets[key := Refilled(l, buckets[key], now)] else buckets
  }

  function Pruned(l: Limits, buckets: Buckets, now: Seconds): Buckets {
    map key | key in buckets && Refilled(l, buckets[key], now).tokens < l.capacity :: Refilled(l, buckets[key], now)
  }

  function After(l: Limits, buckets: Buckets, call: Call, now: Seconds): Buckets {
    match call
    case TryAcquire(key) => Acquired(l, buckets, key, now)
    case RetryAfter(key) => Asked(l, buckets, key, now)
    case Prune => Pruned(l, buckets, now)
  }

  function AnswerTo(l: Limits, buckets: Buckets, call: Call, now: Seconds): Answer
    requires l.tokensPerSecond > 0.0
  {
    match call
    case TryAcquire(key) => Granted(BucketFor(l, buckets, key, now).tokens >= 1.0)
    case RetryAfter(key) =>
      var tokens := BucketFor(l, buckets, key, now).tokens;
      Wait(if tokens >= 1.0 then 0 else Ceil((1.0 - tokens) / l.tokensPerSecond))
    case Prune => Silent
  }

  class RateLimiter {
    var limits: Limits
    var buckets: Buckets

    ghost predicate Valid()
      reads this
    {
      Sensible(limits)
    }

    constructor (capacity: nat, refillWindow: int)
      ensures Valid() && limits == LimitsFor(capacity, refillWindow) && buckets == map[]
    {
      limits := LimitsFor(capacity, refillWindow);
      buckets := map[];
    }

    method Reconfigure(capacity: nat, refillWindow: int)
      modifies this
      ensures Valid() && limits == LimitsFor(capacity, refillWindow) && buckets == map[]
    {
      limits := LimitsFor(capacity, refillWindow);
      buckets := map[];
    }

    method Acquire(key: Key, now: Seconds) returns (ok: bool)
      requires Valid()
      modifies this`buckets
      ensures buckets == After(limits, old(buckets), TryAcquire(key), now)
      ensures Granted(ok) == AnswerTo(limits, old(buckets), TryAcquire(key), now)
    {
      if key !in buckets {
        buckets := buckets[key := Bucket(limits.capacity, now)];
      } else {
        buckets := buckets[key := Refilled(limits, buckets[key], now)];
      }
      var bucket := buckets[key];
      if bucket.tokens < 1.0 {
        return false;
      }
      buckets := buckets[key := bucket.(tokens := bucket.tokens - 1.0)];
      return true;
    }

    method SecondsUntilToken(key: Key, now: Seconds) returns (seconds: int)
      requires Valid()
      modifies this`buckets
      ensures buckets == After(limits, old(buckets), RetryAfter(key), now)
      ensures Wait(seconds) == AnswerTo(limits, old(buckets), RetryAfter(key), now)
    {
      if key !in buckets {
        return 0;
      }
      buckets := buckets[key := Refilled(limits, buckets[key], now)];
      if buckets[key].tokens >= 1.0 {
        return 0;
      }
      var missing := 1.0 - buckets[key].tokens;
      return Ceil(missing / limits.tokensPerSecond);
    }

    /** Visits every entry once, in any order, and erases the full ones on the way. */
    method DropFullBuckets(now: Seconds)
      modifies this`buckets
      ensures buckets == After(limits, old(buckets), Prune, now)
    {
      var unvisited := buckets.Keys;
      while unvisited != {}
        invariant unvisited <= old(buckets).Keys
        invariant forall key <- unvisited :: key in buckets && buckets[key] == old(buckets)[key]
        invariant forall key :: key !in unvisited ==>
          (key in buckets <==> key in Pruned(limits, old(buckets), now))
          && (key in buckets ==> buckets[key] == Pruned(limits, old(buckets), now)[key])
        decreases |unvisited|
      {
        var key :| key in unvisited;
        unvisited := unvisited - {key};
        var bucket := Refilled(limits, buckets[key], now);
        buckets := if bucket.tokens >= limits.capacity then buckets - {key} else buckets[key := bucket];
      }
    }

    method Reset()
      modifies this`buckets
      ensures buckets == map[]
    {
      buckets := map[];
    }
  }

  // ---------------------------------------------------------------------------
  // Levels
  // ---------------------------------------------------------------------------

  /** The tokens a key would find at a given time. */
  function Level(l: Limits, buckets: Buckets, key: Key, now: Seconds): real {
    BucketFor(l, buckets, key, now).tokens
  }

  ghost predicate WellFormed(l: Limits, buckets: Buckets, now: Seconds) {
    && Sensible(l)
    && forall key <- buckets :: 0.0 <= buckets[key].tokens <= l.capacity && buckets[key].lastRefill <= now
  }

  lemma DripsAddUp(l: Limits, a: Seconds, b: Seconds)
    ensures Dripped(l, a + b) == Dripped(l, a) + Dripped(l, b)
  {
  }

  lemma DripsAreNotNegative(l: Limits, elapsed: Seconds)
    requires l.tokensPerSecond > 0.0 && elapsed >= 0.0
    ensures Dripped(l, elapsed) >= 0.0
    ensures Dripped(l, 0.0) == 0.0
  {
  }

  /** Refilling now makes no difference to a later refill. */
  lemma RefillingTwice(l: Limits, b: Bucket, now: Seconds, later: Seconds)
    requires Sensible(l) && b.lastRefill <= now <= later && 0.0 <= b.tokens <= l.capacity
    ensures Refilled(l, Refilled(l, b, now), later).tokens == Refilled(l, b, later).tokens
    ensures 0.0 <= b.tokens <= Refilled(l, b, now).tokens <= l.capacity && Refilled(l, b, now).lastRefill == now
    ensures Refilled(l, b, later).tokens == Min(l.capacity, Refilled(l, b, now).tokens + Dripped(l, later - now))
  {
    hide Dripped;
    DripsAreNotNegative(l, now - b.lastRefill);
    DripsAreNotNegative(l, later - now);
    DripsAddUp(l, now - b.lastRefill, later - now);
    assert now - b.lastRefill + (later - now) == later - b.lastRefill;
  }

  lemma LevelIsInRange(l: Limits, buckets: Buckets, key: Key, now: Seconds)
    requires WellFormed(l, buckets, now)
    ensures 0.0 <= Level(l, buckets, key, now) <= l.capacity
  {
    if key in buckets {
      RefillingTwice(l, buckets[key], now, now);
    }
  }

  /** What time alone does to a level. */
  lemma LevelGrows(l: Limits, buckets: Buckets, key: Key, now: Seconds, later: Seconds)
    requires WellFormed(l, buckets, now) && now <= later
    ensures Level(l, buckets, key, later)
         == Min(l.capacity, Level(l, buckets, key, now) + Dripped(l, later - now))
  {
    hide Dripped;
    DripsAreNotNegative(l, later - now);
    if key in buckets {
      RefillingTwice(l, buckets[key], now, later);
    }
  }

  /** What one token costs. */
  ghost function Cost(l: Limits, buckets: Buckets, call: Call, key: Key, now: Seconds): real {
    if call == TryAcquire(key) && Level(l, buckets, key, now) >= 1.0 then 1.0 else 0.0
  }

  /** A call moves a level only by the token it grants, whatever else it does to the map. */
  lemma CallMovesLevel(l: Limits, buckets: Buckets, call: Call, key: Key, now: Seconds)
    requires WellFormed(l, buckets, now)
    ensures WellFormed(l, After(l, buckets, call, now), now)
    ensures Level(l, After(l, buckets, call, now), key, now) == Level(l, buckets, key, now) - Cost(l, buckets, call, key, now)
  {
    forall k <- buckets
      ensures Refilled(l, buckets[k], now).lastRefill == now && 0.0 <= Refilled(l, buckets[k], now).tokens <= l.capacity
      ensures Refilled(l, Refilled(l, buckets[k], now), now).tokens == Refilled(l, buckets[k], now).tokens
    {
      RefillingTwice(l, buckets[k], now, now);
    }
  }

  // ---------------------------------------------------------------------------
  // Runs
  // ---------------------------------------------------------------------------

  datatype Timed = Timed(call: Call, at: Seconds)

  ghost predicate Ordered(from: Seconds, calls: seq<Timed>)
    decreases |calls|
  {
    calls == [] || (from <= calls[0].at && Ordered(calls[0].at, calls[1..]))
  }

  function LastTime(from: Seconds, calls: seq<Timed>): Seconds {
    if calls == [] then from else calls[|calls| - 1].at
  }

  function Run(l: Limits, buckets: Buckets, calls: seq<Timed>): Buckets
    decreases |calls|
  {
    if calls == [] then buckets else Run(l, After(l, buckets, calls[0].call, calls[0].at), calls[1..])
  }

  /** What the callers see: the answers to everything but prunes. */
  function Answers(l: Limits, buckets: Buckets, calls: seq<Timed>): seq<Answer>
    requires l.tokensPerSecond > 0.0
    decreases |calls|
  {
    if calls == [] then []
    else
      (if calls[0].call.Prune? then [] else [AnswerTo(l, buckets, calls[0].call, calls[0].at)])
      + Answers(l, After(l, buckets, calls[0].call, calls[0].at), calls[1..])
  }

  function WithoutPrunes(calls: seq<Timed>): seq<Timed> {
    if calls == [] then []
    else (if calls[0].call.Prune? then [] else [calls[0]]) + WithoutPrunes(calls[1..])
  }

  function Grants(l: Limits, buckets: Buckets, calls: seq<Timed>, key: Key): nat
    requires l.tokensPerSecond > 0.0
    decreases |calls|
  {
    if calls == [] then 0
    else
      (if calls[0].call == TryAcquire(key) && AnswerTo(l, buckets, calls[0].call, calls[0].at) == Granted(true) then 1 else 0)
      + Grants(l, After(l, buckets, calls[0].call, calls[0].at), calls[1..], key)
  }

  lemma LaterIsWellFormed(l: Limits, buckets: Buckets, now: Seconds, later: Seconds)
    requires WellFormed(l, buckets, now) && now <= later
    ensures WellFormed(l, buckets, later)
  {
  }

  lemma {:induction false} RunsStayWellFormed(l: Limits, buckets: Buckets, from: Seconds, calls: seq<Timed>)
    requires WellFormed(l, buckets, from) && Ordered(from, calls)
    ensures WellFormed(l, Run(l, buckets, calls), LastTime(from, calls))
    decreases |calls|
  {
    hide After;
    if calls != [] {
      LaterIsWellFormed(l, buckets, from, calls[0].at);
      CallMovesLevel(l, buckets, calls[0].call, "", calls[0].at);
      RunsStayWellFormed(l, After(l, buckets, calls[0].call, calls[0].at), calls[0].at, calls[1..]);
    }
  }

  // ---------------------------------------------------------------------------
  // The rate bound
  // ---------------------------------------------------------------------------

  /** Every grant is paid for by tokens that were there or have dripped in since. */
  lemma {:induction false} GrantsArePaidFor(l: Limits, buckets: Buckets, from: Seconds, until: Seconds,
                                            calls: seq<Timed>, key: Key)
    requires WellFormed(l, buckets, from) && Ordered(from, calls) && from <= until
    requires forall k :: 0 <= k < |calls| ==> calls[k].at <= until
    ensures Grants(l, buckets, calls, key) as real
         <= Level(l, buckets, key, from) + Dripped(l, until - from)
    decreases |calls|
  {
    hide After, Level, Dripped;
    DripsAreNotNegative(l, until - from);
    LevelIsInRange(l, buckets, key, from);
    if calls != [] {
      var call, at := calls[0].call, calls[0].at;
      var next := After(l, buckets, call, at);
      LaterIsWellFormed(l, buckets, from, at);
      LevelGrows(l, buckets, key, from, at);
      CallMovesLevel(l, buckets, call, key, at);
      GrantsArePaidFor(l, next, at, until, calls[1..], key);
      GrantCosts(l, buckets, call, key, at);
      DripsAddUp(l, at - from, until - at);
      assert at - from + (until - at) == until - from;
    }
  }

  lemma GrantCosts(l: Limits, buckets: Buckets, call: Call, key: Key, now: Seconds)
    requires l.tokensPerSecond > 0.0
    ensures Cost(l, buckets, call, key, now)
         == if call == TryAcquire(key) && AnswerTo(l, buckets, call, now) == Granted(true) then 1.0 else 0.0
  {
  }

  lemma {:induction false} OrderSplits(from: Seconds, before: seq<Timed>, during: seq<Timed>)
    requires Ordered(from, before + during)
    ensures Ordered(from, before) && Ordered(LastTime(from, before), during)
    decreases |before|
  {
    if before == [] {
      assert before + during == during;
    } else {
      assert (before + during)[1..] == before[1..] + during;
      OrderSplits(before[0].at, before[1..], during);
    }
  }

  /**
   Within any interval of length `length` of any run of a fresh limiter, whatever came before and with
   prunes anywhere, one key is granted at most `capacity + length * capacity / window`.
   */
  lemma RateIsBounded(capacity: nat, window: nat, start: Seconds, before: seq<Timed>, during: seq<Timed>,
                      from: Seconds, length: Seconds, key: Key)
    requires capacity >= 1 && window >= 1 && length >= 0.0
    requires Ordered(start, before + during)
    requires forall k :: 0 <= k < |during| ==> from <= during[k].at <= from + length
    ensures var l := LimitsFor(capacity, window);
            Grants(l, Run(l, map[], before), during, key) as real
            <= capacity as real + length * (capacity as real / window as real)
  {
    hide Level, Run, Dripped, LimitsFor;
    var l := LimitsFor(capacity, window);
    DripsAreNotNegative(l, length);
    FullDrip(capacity, window, length);
    if during != [] {
      var buckets, at := Run(l, map[], before), during[0].at;
      OrderSplits(start, before, during);
      RunsStayWellFormed(l, map[], start, before);
      LaterIsWellFormed(l, buckets, LastTime(start, before), at);
      LevelIsInRange(l, buckets, key, at);
      GrantsArePaidFor(l, buckets, at, from + length, during, key);
      DripsMoreLater(l, from + length - at, length);
    }
  }

  lemma FullDrip(capacity: nat, window: nat, length: Seconds)
    requires capacity >= 1 && window >= 1
    ensures LimitsFor(capacity, window).capacity == capacity as real
    ensures Dripped(LimitsFor(capacity, window), length) == length * (capacity as real / window as real)
  {
  }

  // ---------------------------------------------------------------------------
  // The guarantee to callers
  // ---------------------------------------------------------------------------

  function Requests(calls: seq<Timed>, key: Key): nat {
    if calls == [] then 0 else (if calls[0].call == TryAcquire(key) then 1 else 0) + Requests(calls[1..], key)
  }

  /** No interval between two calls holds more requests than its own share and a full bucket. */
  ghost predicate Conforms(l: Limits, calls: seq<Timed>, key: Key) {
    forall i, j :: 0 <= i <= j < |calls| ==>
      Requests(calls[i..j + 1], key) as real <= l.capacity + Dripped(l, calls[j].at - calls[i].at)
  }

  /** The same counted from now, with the tokens that are there now. */
  ghost predicate Covered(l: Limits, level: real, from: Seconds, calls: seq<Timed>, key: Key) {
    forall j :: 0 <= j < |calls| ==> Requests(calls[..j + 1], key) as real <= level + Dripped(l, calls[j].at - from)
  }

  lemma ConformsLater(l: Limits, calls: seq<Timed>, key: Key)
    requires calls != [] && Conforms(l, calls, key)
    ensures Conforms(l, calls[1..], key)
  {
    hide Dripped;
    var rest := calls[1..];
    forall i, j | 0 <= i <= j < |rest|
      ensures Requests(rest[i..j + 1], key) as real <= l.capacity + Dripped(l, rest[j].at - rest[i].at)
    {
      assert rest[i..j + 1] == calls[i + 1..j + 2];
    }
  }

  /** What the first call leaves still covers the rest. */
  lemma CoveredLater(l: Limits, level: real, from: Seconds, calls: seq<Timed>, key: Key)
    requires calls != [] && Conforms(l, calls, key) && Covered(l, level, from, calls, key)
    ensures var now, cost := calls[0].at, if calls[0].call == TryAcquire(key) then 1.0 else 0.0;
            var found := Min(l.capacity, level + Dripped(l, now - from));
            found >= cost && Covered(l, found - cost, now, calls[1..], key)
  {
    hide Dripped;
    var now, rest := calls[0].at, calls[1..];
    assert calls[0..0 + 1] == [calls[0]] && calls[..1] == [calls[0]] && [calls[0]][1..] == [];
    assert Requests([calls[0]], key) == if calls[0].call == TryAcquire(key) then 1 else 0;
    DripsAddUp(l, 0.0, 0.0);
    assert now - now == 0.0 + 0.0 == 0.0;
    forall j | 0 <= j < |rest|
      ensures Requests(calls[..j + 2], key)
           == (if calls[0].call == TryAcquire(key) then 1 else 0) + Requests(rest[..j + 1], key)
      ensures calls[0..j + 2] == calls[..j + 2]
      ensures Dripped(l, rest[j].at - from) == Dripped(l, now - from) + Dripped(l, rest[j].at - now)
    {
      assert calls[..j + 2][1..] == rest[..j + 1];
      DripsAddUp(l, now - from, rest[j].at - now);
      assert now - from + (rest[j].at - now) == rest[j].at - from;
    }
    forall j | 0 <= j < |rest|
      ensures Requests(rest[..j + 1], key) as real
           <= Min(l.capacity, level + Dripped(l, now - from)) - (if calls[0].call == TryAcquire(key) then 1.0 else 0.0)
              + Dripped(l, rest[j].at - now)
    {
      assert rest[j] == calls[j + 1];
    }
  }

  lemma {:induction false} CoveredRequestsAreGranted(l: Limits, buckets: Buckets, from: Seconds, calls: seq<Timed>, key: Key)
    requires WellFormed(l, buckets, from) && Ordered(from, calls) && Conforms(l, calls, key)
    requires Covered(l, Level(l, buckets, key, from), from, calls, key)
    ensures Grants(l, buckets, calls, key) == Requests(calls, key)
    decreases |calls|
  {
    hide After, Level, Dripped, Conforms, Covered;
    if calls != [] {
      var call, at := calls[0].call, calls[0].at;
      LaterIsWellFormed(l, buckets, from, at);
      LevelGrows(l, buckets, key, from, at);
      CallMovesLevel(l, buckets, call, key, at);
      GrantCosts(l, buckets, call, key, at);
      ConformsLater(l, calls, key);
      CoveredLater(l, Level(l, buckets, key, from), from, calls, key);
      CoveredRequestsAreGranted(l, After(l, buckets, call, at), at, calls[1..], key);
    }
  }

  /** With other keys and prunes anywhere, whoever never asks for more than the rate allows is never refused. */
  lemma ConformingCallersAreNeverRefused(l: Limits, from: Seconds, calls: seq<Timed>, key: Key)
    requires Sensible(l) && Ordered(from, calls) && Conforms(l, calls, key)
    ensures Grants(l, map[], calls, key) == Requests(calls, key)
  {
    hide Dripped, After;
    if calls != [] {
      assert Covered(l, l.capacity, calls[0].at, calls, key) by {
        forall j | 0 <= j < |calls|
          ensures Requests(calls[..j + 1], key) as real <= l.capacity + Dripped(l, calls[j].at - calls[0].at)
        {
          assert calls[0..j + 1] == calls[..j + 1];
        }
      }
      CoveredRequestsAreGranted(l, map[], calls[0].at, calls, key);
    }
  }

  // ---------------------------------------------------------------------------
  // Prunes are unobservable
  // ---------------------------------------------------------------------------

  /** Two bucket maps nobody can tell apart from now on. */
  ghost predicate SameLevels(l: Limits, a: Buckets, b: Buckets, now: Seconds) {
    forall key :: Level(l, a, key, now) == Level(l, b, key, now)
  }

  lemma SameLevelsLater(l: Limits, a: Buckets, b: Buckets, now: Seconds, later: Seconds)
    requires WellFormed(l, a, now) && WellFormed(l, b, now) && SameLevels(l, a, b, now) && now <= later
    ensures SameLevels(l, a, b, later)
  {
    hide Level;
    forall key
      ensures Level(l, a, key, later) == Level(l, b, key, later)
    {
      LevelGrows(l, a, key, now, later);
      LevelGrows(l, b, key, now, later);
    }
  }

  lemma SameLevelsSameAnswers(l: Limits, a: Buckets, b: Buckets, call: Call, now: Seconds)
    requires WellFormed(l, a, now) && WellFormed(l, b, now) && SameLevels(l, a, b, now)
    ensures AnswerTo(l, a, call, now) == AnswerTo(l, b, call, now)
    ensures SameLevels(l, After(l, a, call, now), After(l, b, call, now), now)
  {
    hide After, BucketFor;
    forall key
      ensures Level(l, After(l, a, call, now), key, now) == Level(l, After(l, b, call, now), key, now)
    {
      CallMovesLevel(l, a, call, key, now);
      CallMovesLevel(l, b, call, key, now);
      assert Level(l, a, key, now) == Level(l, b, key, now);
    }
    if !call.Prune? {
      assert Level(l, a, call.key, now) == Level(l, b, call.key, now);
    }
  }

  lemma PruneKeepsLevels(l: Limits, buckets: Buckets, now: Seconds)
    requires WellFormed(l, buckets, now)
    ensures WellFormed(l, After(l, buckets, Prune, now), now)
    ensures SameLevels(l, After(l, buckets, Prune, now), buckets, now)
  {
    hide After, Level;
    CallMovesLevel(l, buckets, Prune, "", now);
    forall key
      ensures Level(l, After(l, buckets, Prune, now), key, now) == Level(l, buckets, key, now)
    {
      CallMovesLevel(l, buckets, Prune, key, now);
    }
  }

  lemma {:induction false} SameAnswersWithoutPrunes(l: Limits, a: Buckets, b: Buckets, from: Seconds, calls: seq<Timed>)
    requires WellFormed(l, a, from) && WellFormed(l, b, from) && SameLevels(l, a, b, from) && Ordered(from, calls)
    ensures Answers(l, a, calls) == Answers(l, b, WithoutPrunes(calls))
    decreases |calls|
  {
    hide After, AnswerTo, WellFormed, SameLevels;
    assert WellFormed(l, a, from) ==> l.tokensPerSecond > 0.0 by {
      WellFormedIsSensible(l, a, from);
    }
    if calls != [] {
      var call, at := calls[0].call, calls[0].at;
      LaterIsWellFormed(l, a, from, at);
      LaterIsWellFormed(l, b, from, at);
      SameLevelsLater(l, a, b, from, at);
      CallMovesLevel(l, a, call, "", at);
      CallMovesLevel(l, b, call, "", at);
      if call.Prune? {
        PruneKeepsLevels(l, a, at);
        SameLevelsChain(l, After(l, a, call, at), a, b, at);
        SameAnswersWithoutPrunes(l, After(l, a, call, at), b, at, calls[1..]);
        assert WithoutPrunes(calls) == WithoutPrunes(calls[1..]);
      } else {
        SameLevelsSameAnswers(l, a, b, call, at);
        SameAnswersWithoutPrunes(l, After(l, a, call, at), After(l, b, call, at), at, calls[1..]);
        assert WithoutPrunes(calls)[0] == calls[0] && WithoutPrunes(calls)[1..] == WithoutPrunes(calls[1..]);
      }
    }
  }

  lemma WellFormedIsSensible(l: Limits, buckets: Buckets, now: Seconds)
    requires WellFormed(l, buckets, now)
    ensures Sensible(l)
  {
  }

  lemma SameLevelsChain(l: Limits, a: Buckets, b: Buckets, c: Buckets, now: Seconds)
    requires SameLevels(l, a, b, now) && SameLevels(l, b, c, now)
    ensures SameLevels(l, a, c, now)
  {
    hide Level;
    forall key
      ensures Level(l, a, key, now) == Level(l, c, key, now)
    {
      assert Level(l, a, key, now) == Level(l, b, key, now);
    }
  }

  /** A limiter with prunes anywhere answers exactly like one that never prunes. */
  lemma PrunesAreUnobservable(l: Limits, from: Seconds, calls: seq<Timed>)
    requires Sensible(l) && Ordered(from, calls)
    ensures Answers(l, map[], calls) == Answers(l, map[], WithoutPrunes(calls))
  {
    SameAnswersWithoutPrunes(l, map[], map[], from, calls);
  }

  // ---------------------------------------------------------------------------
  // retryAfter is exact
  // ---------------------------------------------------------------------------

  ghost predicate LeavesAlone(calls: seq<Timed>, key: Key) {
    forall k :: 0 <= k < |calls| ==> calls[k].call != TryAcquire(key)
  }

  /** Calls for other keys, questions and prunes leave a level to time alone. */
  lemma {:induction false} OthersLeaveTheLevel(l: Limits, buckets: Buckets, from: Seconds, until: Seconds,
                                               calls: seq<Timed>, key: Key)
    requires WellFormed(l, buckets, from) && Ordered(from, calls) && from <= until && LeavesAlone(calls, key)
    requires forall k :: 0 <= k < |calls| ==> calls[k].at <= until
    ensures Level(l, Run(l, buckets, calls), key, until) == Level(l, buckets, key, until)
    decreases |calls|
  {
    hide After, Level;
    if calls != [] {
      var call, at := calls[0].call, calls[0].at;
      LaterIsWellFormed(l, buckets, from, at);
      CallMovesLevel(l, buckets, call, key, at);
      assert calls[0] == Timed(call, at) && call != TryAcquire(key);
      var next := After(l, buckets, call, at);
      LevelGrows(l, buckets, key, at, until);
      LevelGrows(l, next, key, at, until);
      OthersLeaveTheLevel(l, next, at, until, calls[1..], key);
    }
  }

  lemma WaitingPays(l: Limits, missing: real, n: int)
    requires l.tokensPerSecond > 0.0
    ensures Dripped(l, n as real) >= missing <==> n >= Ceil(missing / l.tokensPerSecond)
  {
    var needed := missing / l.tokensPerSecond;
    assert Dripped(l, needed) == missing;
    DripsMoreLater(l, needed, n as real);
    DripsMoreLater(l, n as real, needed);
  }

  lemma DripsMoreLater(l: Limits, a: Seconds, b: Seconds)
    requires l.tokensPerSecond > 0.0
    ensures a <= b ==> Dripped(l, a) <= Dripped(l, b)
    ensures a < b ==> Dripped(l, a) < Dripped(l, b)
  {
  }

  lemma EnoughAfterWaiting(l: Limits, tokens: real, n: nat)
    requires Sensible(l) && 0.0 <= tokens <= l.capacity
    ensures Min(l.capacity, tokens + Dripped(l, n as real)) >= 1.0
       <==> n >= if tokens >= 1.0 then 0 else Ceil((1.0 - tokens) / l.tokensPerSecond)
  {
    hide Dripped, Ceil;
    DripsAreNotNegative(l, n as real);
    WaitingPays(l, 1.0 - tokens, n);
  }

  /**
   After a wait of `n` whole seconds in which nobody else acquires for the key, the next acquire is
   granted exactly when `n` is at least what `retryAfter` answered.
   */
  lemma RetryAfterIsTheLeastWait(l: Limits, buckets: Buckets, key: Key, now: Seconds, calls: seq<Timed>, n: nat)
    requires WellFormed(l, buckets, now) && Ordered(now, calls) && LeavesAlone(calls, key)
    requires forall k :: 0 <= k < |calls| ==> calls[k].at <= now + n as real
    ensures var asked := After(l, buckets, RetryAfter(key), now);
            AnswerTo(l, Run(l, asked, calls), TryAcquire(key), now + n as real)
            == Granted(n >= AnswerTo(l, buckets, RetryAfter(key), now).seconds)
  {
    hide After, Run, Ordered, Dripped, Ceil, WellFormed, LeavesAlone;
    var asked := After(l, buckets, RetryAfter(key), now);
    var later := now + n as real;
    var tokens := Level(l, buckets, key, now);
    WellFormedIsSensible(l, buckets, now);
    CallMovesLevel(l, buckets, RetryAfter(key), key, now);
    OthersLeaveTheLevel(l, asked, now, later, calls, key);
    LevelIsInRange(l, buckets, key, now);
    LevelGrows(l, asked, key, now, later);
    assert later - now == n as real;
    EnoughAfterWaiting(l, tokens, n);
  }
}
