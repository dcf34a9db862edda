/** A fixed-window rate limiter over an expiring counter per key. */
module RateLimiter {
  import opened Basics

  datatype Decision = Allowed | Denied(limit: nat, windowSecs: nat)

  /** A counter that vanishes at `expiresAt`. */
  datatype Counter = Counter(count: nat, expiresAt: nat)

  /** Increments a counter, which starts over once expired, and starts its window with the
      first request only. */
  function Bumped(counter: Option<Counter>, window: nat, now: nat): Counter {
    if counter.Some? && now < counter.value.expiresAt
    then counter.value.(count := counter.value.count + 1)
    else Counter(1, now + window)
  }

  function Lookup(counters: map<string, Counter>, key: string): Option<Counter> {
    if key in counters then Some(counters[key]) else None
  }

  /** All counters after one more request. */
  function Counted(counters: map<string, Counter>, key: string, window: nat, now: nat): map<string, Counter> {
    counters[key := Bumped(Lookup(counters, key), window, now)]
  }

  class Limiter {
    var counters: map<string, Counter>

    /** A stored counter has counted something. */
    ghost predicate Valid()
      reads this
    {
      forall key :: key in counters ==> counters[key].count >= 1
    }

    constructor ()
      ensures counters == map[] && Valid()
    {
      counters := map[];
    }

    /** Counts the request, allowed or not, and touches no other key. */
    method Check(key: string, limit: nat, window: nat, now: nat) returns (decision: Decision)
      requires Valid()
      modifies this`counters
      ensures Valid()
      ensures counters == Counted(old(counters), key, window, now)
      ensures decision == if counters[key].count <= limit then Allowed else Denied(limit, window)
    {
      var count := Incr(key, now);
      if count == 1 {
        counters := counters[key := counters[key].(expiresAt := now + window)];
      }
      if count > limit {
        decision := Denied(limit, window);
      } else {
        decision := Allowed;
      }
    }

    /** The store's atomic increment: an absent or expired key counts from zero. */
    method Incr(key: string, now: nat) returns (count: nat)
      modifies this`counters
      ensures key in counters && counters == old(counters)[key := counters[key]] && counters[key].count == count
      ensures old(key in counters && now < counters[key].expiresAt) ==>
                counters[key] == old(counters[key]).(count := old(counters[key]).count + 1)
      ensures !old(key in counters && now < counters[key].expiresAt) ==> count == 1
    {
      if key in counters && now < counters[key].expiresAt {
        counters := counters[key := counters[key].(count := counters[key].count + 1)];
      } else {
        counters := counters[key := Counter(1, 0)];
      }
      count := counters[key].count;
    }
  }

  // ----- What a sequence of requests on one key gets -----

  ghost predicate Ordered(times: seq<nat>) {
    forall i, j :: 0 <= i < j < |times| ==> times[i] <= times[j]
  }

  /** The key's counter after requests at the given times. */
  function After(times: seq<nat>, window: nat): Option<Counter> {
    if times == [] then None
    else Some(Bumped(After(times[..|times| - 1], window), window, times[|times| - 1]))
  }

  datatype Request = Request(key: string, now: nat)

  /** All counters after requests on any keys, each key with its own window. */
  function AfterAll(requests: seq<Request>, window: string -> nat): map<string, Counter> {
    if requests == [] then map[] else
    var last := requests[|requests| - 1];
    Counted(AfterAll(requests[..|requests| - 1], window), last.key, window(last.key), last.now)
  }

  function TimesOf(requests: seq<Request>, key: string): seq<nat> {
    if requests == [] then [] else
    var last := requests[|requests| - 1];
    TimesOf(requests[..|requests| - 1], key) + if last.key == key then [last.now] else []
  }

  /** Keys do not interfere: a counter depends on the times of its own requests only. */
  lemma {:induction false} KeysIndependent(requests: seq<Request>, window: string -> nat, key: string)
    ensures Lookup(AfterAll(requests, window), key) == After(TimesOf(requests, key), window(key))
  {
    if requests == [] {
    } else {
      var n := |requests| - 1;
      KeysIndependent(requests[..n], window, key);
      var before := TimesOf(requests[..n], key);
      if requests[n].key == key {
        assert (before + [requests[n].now])[..|before|] == before;
      } else {
        assert before + [] == before;
      }
    }
  }

  /** Whether request `i` is allowed. */
  predicate IsAllowed(times: seq<nat>, limit: nat, window: nat, i: nat)
    requires i < |times|
  {
    After(times[..i + 1], window).value.count <= limit
  }

  /** The request that opened the window of request `i`: the first one at or after the end
      of the window before. */
  function Opener(times: seq<nat>, window: nat, i: nat): (o: nat)
    requires i < |times|
    ensures o <= i
  {
    if i == 0 then 0
    else
      var before := Opener(times, window, i - 1);
      if times[i] < times[before] + window then before else i
  }

  /** The counter is the position in the window, which ends when its opener set it to,
      whatever was denied since. */
  lemma {:induction false} CounterIsPosition(times: seq<nat>, window: nat, i: nat)
    requires i < |times|
    ensures After(times[..i + 1], window) ==
            Some(Counter(i - Opener(times, window, i) + 1, times[Opener(times, window, i)] + window))
  {
    assert times[..i + 1][..i] == times[..i];
    if i == 0 {
      assert After(times[..0], window) == None;
    } else {
      CounterIsPosition(times, window, i - 1);
    }
  }

  /** Each window allows exactly its first `limit` requests. */
  lemma FirstOfWindowAllowed(times: seq<nat>, limit: nat, window: nat, i: nat)
    requires i < |times|
    ensures IsAllowed(times, limit, window, i) <==> i - Opener(times, window, i) < limit
  {
    CounterIsPosition(times, window, i);
  }

  /** Requests come after their opener, within the window. */
  lemma {:induction false} OpenerBounds(times: seq<nat>, window: nat, i: nat)
    requires i < |times| && Ordered(times) && window > 0
    ensures times[Opener(times, window, i)] <= times[i] < times[Opener(times, window, i)] + window
    ensures Opener(times, window, Opener(times, window, i)) == Opener(times, window, i)
  {
    if i == 0 {
    } else {
      OpenerBounds(times, window, i - 1);
    }
  }

  /** A later request is in the same window, or its window starts after this one's end. */
  lemma {:induction false} NextWindow(times: seq<nat>, window: nat, i: nat, j: nat)
    requires i <= j < |times| && Ordered(times) && window > 0
    ensures var a, b := Opener(times, window, i), Opener(times, window, j);
            a == b || (i < b && times[a] + window <= times[b])
    decreases j
  {
    if i < j {
      NextWindow(times, window, i, j - 1);
      var a, m := Opener(times, window, i), Opener(times, window, j - 1);
      if Opener(times, window, j) != m && a != m {
        assert times[a] + window <= times[m] <= times[j];
      }
    }
  }

  /** The allowed requests of a closed interval. */
  ghost function AllowedIn(times: seq<nat>, limit: nat, window: nat, from: nat, to: nat): set<nat> {
    set i | 0 <= i < |times| && from <= times[i] <= to && IsAllowed(times, limit, window, i)
  }

  ghost function Interval(lo: nat, n: nat): (r: set<nat>)
    ensures forall i :: i in r <==> lo <= i < lo + n
    ensures |r| == n
  {
    if n == 0 then {} else Interval(lo, n - 1) + {lo + n - 1}
  }

  /** Between two requests at most one window length apart there are at most two windows. */
  lemma TwoWindows(times: seq<nat>, window: nat, i: nat, k: nat, j: nat)
    requires i <= k <= j < |times| && Ordered(times) && window > 0 && times[j] <= times[i] + window
    ensures Opener(times, window, k) == Opener(times, window, i) || Opener(times, window, k) == Opener(times, window, j)
  {
    NextWindow(times, window, i, k);
    NextWindow(times, window, k, j);
    OpenerBounds(times, window, i);
    OpenerBounds(times, window, j);
  }

  ghost predicate IsFirst(times: seq<nat>, from: nat, i: nat)
    requires i < |times|
  {
    from <= times[i] && forall k :: 0 <= k < i ==> times[k] < from
  }

  ghost predicate IsLast(times: seq<nat>, to: nat, j: nat)
    requires j < |times|
  {
    times[j] <= to && forall k :: j < k < |times| ==> times[k] > to
  }

  lemma {:induction false} FindFirst(times: seq<nat>, from: nat, x: nat) returns (i: nat)
    requires x < |times| && Ordered(times) && from <= times[x]
    ensures i <= x && IsFirst(times, from, i)
  {
    i := x;
    while i > 0 && from <= times[i - 1]
      invariant i <= x && from <= times[i]
    {
      i := i - 1;
    }
  }

  lemma {:induction false} FindLast(times: seq<nat>, to: nat, x: nat) returns (j: nat)
    requires x < |times| && Ordered(times) && times[x] <= to
    ensures x <= j < |times| && IsLast(times, to, j)
  {
    j := x;
    while j + 1 < |times| && times[j + 1] <= to
      invariant x <= j < |times| && times[j] <= to
    {
      j := j + 1;
    }
  }

  /** Any closed interval of one window length holds at most 2 * limit allowed requests. */
  lemma AtMostTwoLimits(times: seq<nat>, limit: nat, window: nat, from: nat)
    requires Ordered(times) && window > 0
    ensures |AllowedIn(times, limit, window, from, from + window)| <= 2 * limit
  {
    var allowed := AllowedIn(times, limit, window, from, from + window);
    if allowed != {} {
      var x :| x in allowed;
      var i := FindFirst(times, from, x);
      var j := FindLast(times, from + window, x);
      var a, b := Opener(times, window, i), Opener(times, window, j);
      forall k | k in allowed ensures k in Interval(a, limit) + Interval(b, limit) {
        FirstOfWindowAllowed(times, limit, window, k);
        TwoWindows(times, window, i, k, j);
      }
      SubsetSize(allowed, Interval(a, limit) + Interval(b, limit));
    }
  }

  /** A burst of requests at one time, and another one window length later. */
  function TwoBursts(limit: nat, window: nat, t: nat): seq<nat> {
    seq(2 * limit, i => if i < limit then t else t + window)
  }

  lemma {:induction false} BurstOpeners(limit: nat, window: nat, t: nat, i: nat)
    requires i < 2 * limit && window > 0
    ensures Opener(TwoBursts(limit, window, t), window, i) == if i < limit then 0 else limit
  {
    if i == 0 {
    } else {
      BurstOpeners(limit, window, t, i - 1);
    }
  }

  /** The bound is attained: both bursts go through completely. */
  lemma TwoLimitsAttained(limit: nat, window: nat, t: nat)
    requires window > 0
    ensures var times := TwoBursts(limit, window, t);
            Ordered(times) && |AllowedIn(times, limit, window, t, t + window)| == 2 * limit
  {
    var times := TwoBursts(limit, window, t);
    forall i | 0 <= i < 2 * limit ensures IsAllowed(times, limit, window, i) {
      BurstOpeners(limit, window, t, i);
      FirstOfWindowAllowed(times, limit, window, i);
    }
    assert AllowedIn(times, limit, window, t, t + window) == Interval(0, 2 * limit);
  }

  /** Leaving out one end point, at most 2 * limit - 1: the request that opens the earlier
      window and one of the later window never fit in together. */
  lemma HalfOpenBound(times: seq<nat>, limit: nat, window: nat, from: nat)
    requires Ordered(times) && window > 0 && limit > 0
    ensures |AllowedIn(times, limit, window, from, from + window - 1)| <= 2 * limit - 1
  {
    var allowed := AllowedIn(times, limit, window, from, from + window - 1);
    if allowed != {} {
      var x :| x in allowed;
      var i := FindFirst(times, from, x);
      var j := FindLast(times, from + window - 1, x);
      var a, b := Opener(times, window, i), Opener(times, window, j);
      forall k | k in allowed ensures k in Interval(a + 1, limit - 1) + Interval(b, limit) {
        HalfOpenPosition(times, limit, window, i, k, j);
      }
      SubsetSize(allowed, Interval(a + 1, limit - 1) + Interval(b, limit));
    }
  }

  /** Less than a window length apart, an allowed request is no opener but of the later window. */
  lemma HalfOpenPosition(times: seq<nat>, limit: nat, window: nat, i: nat, k: nat, j: nat)
    requires i <= k <= j < |times| && Ordered(times) && window > 0 && times[j] < times[i] + window
    requires IsAllowed(times, limit, window, k)
    ensures var a, b := Opener(times, window, i), Opener(times, window, j);
            a + 1 <= k < a + limit || b <= k < b + limit
  {
    FirstOfWindowAllowed(times, limit, window, k);
    TwoWindows(times, window, i, k, j);
    NextWindow(times, window, i, j);
  }
}
