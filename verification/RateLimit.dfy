/** The sliding-window limiter: lazy eviction and pruning against a limiter that never forgets. */
module RateLimit {

  /** Outcome of one attempt.  IndexError is Python's exception for `hits[0]` on an empty deque. */
  datatype Decision = Allowed | Refused(wait: real) | IndexError

  datatype Attempt = Attempt(key: string, at: real)

  type Log = map<string, seq<real>>

  const PRUNE_THRESHOLD := 10_000

  function TimesOf(log: Log, key: string): seq<real> {
    if key in log then log[key] else []
  }

  /** The entries later than `cutoff`, in order. */
  function Recent(times: seq<real>, cutoff: real): seq<real> {
    if times == [] then []
    else if times[0] > cutoff then [times[0]] + Recent(times[1..], cutoff)
    else Recent(times[1..], cutoff)
  }

  /** The naive limiter: look at the whole log of allowed attempts every time. */
  function Naive(limit: int, window: real, times: seq<real>, now: real): Decision {
    var counted := Recent(times, now - window);
    if |counted| < limit then Allowed
    else if counted == [] then IndexError
    else Refused(counted[0] + window - now)
  }

  function Record(limit: int, window: real, log: Log, a: Attempt): Log {
    if Naive(limit, window, TimesOf(log, a.key), a.at).Allowed?
    then log[a.key := TimesOf(log, a.key) + [a.at]]
    else log
  }

  function RunLog(limit: int, window: real, attempts: seq<Attempt>): Log {
    if attempts == [] then map[]
    else Record(limit, window, RunLog(limit, window, attempts[..|attempts| - 1]), attempts[|attempts| - 1])
  }

  /** How many log entries fall in the half-open interval (lo, hi]. */
  function CountWithin(times: seq<real>, lo: real, hi: real): nat {
    if times == [] then 0
    else CountWithin(times[1..], lo, hi) + if lo < times[0] <= hi then 1 else 0
  }

  ghost predicate Ordered(times: seq<real>, latest: real) {
    && (forall i, j :: 0 <= i < j < |times| ==> times[i] <= times[j])
    && (forall i :: 0 <= i < |times| ==> times[i] <= latest)
  }

  ghost predicate Chronological(attempts: seq<Attempt>) {
    forall i, j :: 0 <= i < j < |attempts| ==> attempts[i].at <= attempts[j].at
  }

  /** A deque stands for a key's log when no later call can tell the two apart. */
  ghost predicate Tracked(times: seq<real>, kept: seq<real>, clock: real, window: real) {
    Ordered(kept, clock) && Recent(kept, clock - window) == Recent(times, clock - window)
  }

  ghost predicate AllTracked(log: Log, hits: Log, clock: real, window: real) {
    forall key: string :: Tracked(TimesOf(log, key), TimesOf(hits, key), clock, window)
  }

  class SlidingWindowLimiter {
    const limit: int
    const window: real
    var hits: map<string, seq<real>>
    ghost var log: Log      // every allowed attempt, never forgotten
    ghost var clock: real   // time of the latest call

    ghost predicate Valid()
      reads this
    {
      AllTracked(log, hits, clock, window)
    }

    constructor (limit: int, window: real, start: real)
      ensures Valid() && this.limit == limit && this.window == window
      ensures log == map[] && clock == start
    {
      this.limit, this.window := limit, window;
      hits, log, clock := map[], map[], start;
    }

    method Check(key: string, now: real) returns (d: Decision)
      requires Valid() && clock <= now
      modifies this
      ensures Valid() && clock == now
      ensures d == Naive(limit, window, TimesOf(old(log), key), now)
      ensures log == Record(limit, window, old(log), Attempt(key, now))
    {
      var queue := Evict(key, now);
      if |queue| >= limit {
        if queue == [] {
          return IndexError;
        }
        return Refused(queue[0] + window - now);
      }
      AfterAllowing(log, hits, window, key, now);
      hits := hits[key := queue + [now]];
      log := log[key := TimesOf(log, key) + [now]];
      if |hits| > PRUNE_THRESHOLD {
        Prune(now);
      }
      d := Allowed;
    }

    method Evict(key: string, now: real) returns (queue: seq<real>)
      requires Valid() && clock <= now
      modifies this`hits, this`clock
      ensures Valid() && clock == now
      ensures hits == old(hits)[key := queue]
      ensures queue == Recent(TimesOf(log, key), now - window)
    {
      assert Tracked(TimesOf(log, key), TimesOf(hits, key), clock, window);
      queue := DropExpired(TimesOf(hits, key), clock, now - window);
      AfterEviction(log, hits, clock, window, key, queue, now);
      clock := now;
      hits := hits[key := queue];
    }

    method Prune(now: real)
      requires Valid() && clock == now
      modifies this`hits
      ensures Valid()
      ensures forall k :: k in hits ==> hits[k] != []
    {
      var pending := hits.Keys;
      while pending != {}
        invariant pending <= hits.Keys
        invariant Valid()
        invariant forall k :: k in hits && k !in pending ==> hits[k] != []
        decreases |pending|
      {
        var key :| key in pending;
        pending := pending - {key};
        assert Tracked(TimesOf(log, key), TimesOf(hits, key), clock, window);
        var queue := DropExpired(hits[key], clock, now - window);
        AfterEviction(log, hits, clock, window, key, queue, now);
        if queue == [] {
          hits := hits - {key};
        } else {
          hits := hits[key := queue];
        }
      }
    }

    method DropExpired(queue: seq<real>, ghost latest: real, cutoff: real) returns (rest: seq<real>)
      requires Ordered(queue, latest)
      ensures rest == Recent(queue, cutoff)
    {
      rest := queue;
      while rest != [] && rest[0] <= cutoff
        invariant forall i, j :: 0 <= i < j < |rest| ==> rest[i] <= rest[j]
        invariant Recent(rest, cutoff) == Recent(queue, cutoff)
        decreases |rest|
      {
        rest := rest[1..];
      }
      if rest != [] {
        assert forall i :: 0 <= i < |rest| ==> rest[0] <= rest[i];
      }
      RecentAll(rest, cutoff);
    }
  }

  lemma AfterEviction(log: Log, hits: Log, clock: real, window: real, key: string, queue: seq<real>, now: real)
    requires AllTracked(log, hits, clock, window) && clock <= now
    requires queue == Recent(TimesOf(hits, key), now - window)
    ensures AllTracked(log, hits[key := queue], now, window)
    ensures queue == [] ==> AllTracked(log, hits - {key}, now, window)
    ensures Recent(TimesOf(log, key), now - window) == queue
  {
    hide Tracked, Recent;
    forall k: string
      ensures Tracked(TimesOf(log, k), TimesOf(hits[key := queue], k), now, window)
      ensures queue == [] ==> Tracked(TimesOf(log, k), TimesOf(hits - {key}, k), now, window)
    {
      assert Tracked(TimesOf(log, k), TimesOf(hits, k), clock, window);
      EvictionKeepsTrack(TimesOf(log, k), TimesOf(hits, k), clock, now, window);
    }
    assert Tracked(TimesOf(log, key), TimesOf(hits, key), clock, window);
    EvictionKeepsTrack(TimesOf(log, key), TimesOf(hits, key), clock, now, window);
  }

  /** A queue keeps track of its log as time goes on, evicted or not. */
  lemma EvictionKeepsTrack(times: seq<real>, kept: seq<real>, clock: real, now: real, window: real)
    requires Tracked(times, kept, clock, window) && clock <= now
    ensures Tracked(times, kept, now, window) && Tracked(times, Recent(kept, now - window), now, window)
    ensures Recent(times, now - window) == Recent(kept, now - window)
  {
    hide Recent;
    RecentTwice(times, clock - window, now - window);
    RecentTwice(kept, clock - window, now - window);
    RecentTwice(kept, now - window, now - window);
    RecentOrdered(kept, now, now - window);
  }

  lemma AfterAllowing(log: Log, hits: Log, window: real, key: string, now: real)
    requires AllTracked(log, hits, now, window)
    ensures AllTracked(log[key := TimesOf(log, key) + [now]], hits[key := TimesOf(hits, key) + [now]], now, window)
  {
    var log', hits' := log[key := TimesOf(log, key) + [now]], hits[key := TimesOf(hits, key) + [now]];
    forall k: string
      ensures Tracked(TimesOf(log', k), TimesOf(hits', k), now, window)
    {
      assert Tracked(TimesOf(log, k), TimesOf(hits, k), now, window);
      if k == key {
        TrackedAppend(TimesOf(log, k), TimesOf(hits, k), now, window);
      }
    }
  }

  lemma TrackedAppend(times: seq<real>, kept: seq<real>, now: real, window: real)
    requires Tracked(times, kept, now, window)
    ensures Tracked(times + [now], kept + [now], now, window)
  {
    RecentAppend(times, now, now - window);
    RecentAppend(kept, now, now - window);
  }

  lemma {:induction false} RecentTwice(times: seq<real>, early: real, late: real)
    requires early <= late
    ensures Recent(Recent(times, early), late) == Recent(times, late)
  {
    if times != [] {
      RecentTwice(times[1..], early, late);
    }
  }

  lemma {:induction false} RecentOrdered(times: seq<real>, latest: real, cutoff: real)
    requires Ordered(times, latest)
    ensures Ordered(Recent(times, cutoff), latest)
  {
    if times != [] {
      RecentOrdered(times[1..], latest, cutoff);
      if times[0] > cutoff {
        assert forall i :: 0 <= i < |times| ==> times[0] <= times[i];
        RecentAll(times, cutoff);
      }
    }
  }

  // ----- what filtering does to a log -----

  lemma {:induction false} RecentAll(times: seq<real>, cutoff: real)
    requires forall i :: 0 <= i < |times| ==> times[i] > cutoff
    ensures Recent(times, cutoff) == times
  {
    if times != [] {
      RecentAll(times[1..], cutoff);
    }
  }

  lemma {:induction false} RecentAppend(times: seq<real>, x: real, cutoff: real)
    ensures Recent(times + [x], cutoff) == Recent(times, cutoff) + if x > cutoff then [x] else []
  {
    if times != [] {
      assert (times + [x])[1..] == times[1..] + [x];
      RecentAppend(times[1..], x, cutoff);
    }
  }

  lemma {:induction false} RecentShrinks(times: seq<real>, early: real, late: real)
    requires early <= late
    ensures |Recent(times, late)| <= |Recent(times, early)|
    ensures forall x :: x in Recent(times, late) ==> x > late
    ensures forall x :: x in Recent(times, early) && x > late ==> x in Recent(times, late)
    ensures Recent(times, early) != [] && Recent(times, early)[0] <= late
            ==> |Recent(times, late)| < |Recent(times, early)|
  {
    if times != [] {
      RecentShrinks(times[1..], early, late);
    }
  }

  /** As long as the oldest counted entry is still inside, the count does not move. */
  lemma {:induction false} RecentSame(times: seq<real>, early: real, late: real)
    requires early <= late
    requires forall i, j :: 0 <= i < j < |times| ==> times[i] <= times[j]
    requires Recent(times, early) != [] && Recent(times, early)[0] > late
    ensures Recent(times, late) == Recent(times, early)
  {
    if times[0] > early {
      assert forall i :: 0 <= i < |times| ==> times[0] <= times[i];
      RecentAll(times, late);
      RecentAll(times, early);
    } else {
      RecentSame(times[1..], early, late);
    }
  }

  lemma {:induction false} CountIsBounded(times: seq<real>, lo: real, hi: real)
    ensures CountWithin(times, lo, hi) <= |Recent(times, lo)|
  {
    if times != [] {
      CountIsBounded(times[1..], lo, hi);
    }
  }

  lemma {:induction false} CountAppend(times: seq<real>, x: real, lo: real, hi: real)
    ensures CountWithin(times + [x], lo, hi) == CountWithin(times, lo, hi) + if lo < x <= hi then 1 else 0
  {
    if times != [] {
      assert (times + [x])[1..] == times[1..] + [x];
      CountAppend(times[1..], x, lo, hi);
    }
  }

  lemma {:induction false} CountAll(times: seq<real>, lo: real, hi: real)
    requires forall i :: 0 <= i < |times| ==> times[i] <= hi
    ensures CountWithin(times, lo, hi) == |Recent(times, lo)|
  {
    if times != [] {
      CountAll(times[1..], lo, hi);
    }
  }

  // ----- what the limiter is for -----

  lemma {:induction false} RunIsOrdered(limit: int, window: real, attempts: seq<Attempt>, key: string, latest: real)
    requires Chronological(attempts)
    requires forall i :: 0 <= i < |attempts| ==> attempts[i].at <= latest
    ensures Ordered(TimesOf(RunLog(limit, window, attempts), key), latest)
  {
    if attempts != [] {
      var last := attempts[|attempts| - 1];
      RunIsOrdered(limit, window, attempts[..|attempts| - 1], key, last.at);
    }
  }

  /** Whatever keys are interleaved, no window of length `window` ever holds more than `limit` allowed attempts. */
  lemma {:induction false} NeverOverLimit(limit: int, window: real, attempts: seq<Attempt>, key: string, t: real)
    requires Chronological(attempts)
    ensures CountWithin(TimesOf(RunLog(limit, window, attempts), key), t - window, t) <= if limit > 0 then limit else 0
  {
    if attempts != [] {
      var rest, last := attempts[..|attempts| - 1], attempts[|attempts| - 1];
      NeverOverLimit(limit, window, rest, key, t);
      var times := TimesOf(RunLog(limit, window, rest), key);
      if last.key == key && Naive(limit, window, times, last.at).Allowed? {
        CountAppend(times, last.at, t - window, t);
        if last.at <= t {
          RecentShrinks(times, last.at - window, t - window);
          CountIsBounded(times, t - window, t);
        }
      }
    }
  }

  /** IndexError is reachable, and only for a limiter built with a limit below one. */
  lemma {:induction false} IndexErrorIffNoBudget(limit: int, window: real, attempts: seq<Attempt>, key: string, now: real)
    ensures Naive(limit, window, TimesOf(RunLog(limit, window, attempts), key), now).IndexError? <==> limit <= 0
  {
    if limit <= 0 {
      NothingLogged(limit, window, attempts);
    }
  }

  lemma {:induction false} NothingLogged(limit: int, window: real, attempts: seq<Attempt>)
    requires limit <= 0
    ensures RunLog(limit, window, attempts) == map[]
  {
    if attempts != [] {
      NothingLogged(limit, window, attempts[..|attempts| - 1]);
    }
  }

  /** The attempts in `later` on `key` all come before `until`. */
  ghost predicate KeyBefore(later: seq<Attempt>, key: string, until: real) {
    forall i :: 0 <= i < |later| && later[i].key == key ==> later[i].at < until
  }

  lemma {:induction false} RefusedMeanwhile(limit: int, window: real, past: seq<Attempt>, later: seq<Attempt>,
                                            key: string, now: real, wait: real)
    requires Chronological(past)
    requires forall i :: 0 <= i < |past| ==> past[i].at <= now
    requires Naive(limit, window, TimesOf(RunLog(limit, window, past), key), now) == Refused(wait)
    requires KeyBefore(later, key, now + wait)
    requires forall i :: 0 <= i < |later| ==> now <= later[i].at
    ensures TimesOf(RunLog(limit, window, past + later), key) == TimesOf(RunLog(limit, window, past), key)
  {
    hide Naive, RunLog, TimesOf, Chronological;
    if later == [] {
      assert past + later == past;
    } else {
      var init, last := later[..|later| - 1], later[|later| - 1];
      assert (past + later)[..|past + later| - 1] == past + init;
      RefusedMeanwhile(limit, window, past, init, key, now, wait);
      if last.key == key {
        RunIsOrdered(limit, window, past, key, now);
        StillRefused(limit, window, TimesOf(RunLog(limit, window, past), key), now, wait, last.at);
      }
      RefusalsLeaveNoTrace(limit, window, past + later, key);
    }
  }

  lemma RefusalsLeaveNoTrace(limit: int, window: real, attempts: seq<Attempt>, key: string)
    requires attempts != []
    ensures var last, before := attempts[|attempts| - 1], RunLog(limit, window, attempts[..|attempts| - 1]);
            last.key != key || !Naive(limit, window, TimesOf(before, key), last.at).Allowed? ==>
              TimesOf(RunLog(limit, window, attempts), key) == TimesOf(before, key)
  {
  }

  lemma StillRefused(limit: int, window: real, times: seq<real>, now: real, wait: real, at: real)
    requires Ordered(times, now) && Naive(limit, window, times, now) == Refused(wait)
    requires now <= at < now + wait
    ensures !Naive(limit, window, times, at).Allowed?
  {
    RecentSame(times, now - window, at - window);
  }

  /** The wait is exact: positive, at most one window, every attempt on the key before it has elapsed is refused
      whatever other keys do, and the first attempt at or after it is allowed. */
  lemma WaitIsExact(limit: int, window: real, past: seq<Attempt>, later: seq<Attempt>,
                    key: string, now: real, wait: real, next: real)
    requires Chronological(past)
    requires forall i :: 0 <= i < |past| ==> past[i].at <= now
    requires Naive(limit, window, TimesOf(RunLog(limit, window, past), key), now) == Refused(wait)
    requires KeyBefore(later, key, now + wait)
    requires forall i :: 0 <= i < |later| ==> now <= later[i].at
    requires now <= next
    ensures 0.0 < wait <= window
    ensures Naive(limit, window, TimesOf(RunLog(limit, window, past + later), key), next).Allowed? <==> now + wait <= next
  {
    var times := TimesOf(RunLog(limit, window, past), key);
    RefusedMeanwhile(limit, window, past, later, key, now, wait);
    RunIsOrdered(limit, window, past, key, now);
    NeverOverLimit(limit, window, past, key, now);
    CountAll(times, now - window, now);
    IndexErrorIffNoBudget(limit, window, past, key, now);
    AllowedExactlyFrom(limit, window, times, now, wait, next);
  }

  lemma AllowedExactlyFrom(limit: int, window: real, times: seq<real>, now: real, wait: real, next: real)
    requires Ordered(times, now) && now <= next
    requires Naive(limit, window, times, now) == Refused(wait)
    requires |Recent(times, now - window)| == limit
    ensures 0.0 < wait <= window
    ensures Naive(limit, window, times, next).Allowed? <==> now + wait <= next
  {
    var counted := Recent(times, now - window);
    RecentShrinks(times, now - window, now - window);
    RecentMembers(times, now - window);
    assert counted[0] in counted;
    if next < now + wait {
      RecentSame(times, now - window, next - window);
    } else {
      RecentShrinks(times, now - window, next - window);
    }
  }

  lemma {:induction false} RecentMembers(times: seq<real>, cutoff: real)
    ensures forall x :: x in Recent(times, cutoff) ==> x in times
  {
    if times != [] {
      RecentMembers(times[1..], cutoff);
    }
  }

  /** The Retry-After header: max(1, ceil(wait)). */
  function RetryAfter(wait: real): int {
    var ceiling := -((-wait).Floor);
    if ceiling < 1 then 1 else ceiling
  }

  /** Waiting as long as the header says is always enough, and it never overstates the wait by a full second
      unless the minimum of one second applies. */
  lemma RetryAfterSuffices(limit: int, window: real, past: seq<Attempt>, key: string, now: real, wait: real)
    requires Chronological(past)
    requires forall i :: 0 <= i < |past| ==> past[i].at <= now
    requires Naive(limit, window, TimesOf(RunLog(limit, window, past), key), now) == Refused(wait)
    ensures Naive(limit, window, TimesOf(RunLog(limit, window, past), key), now + RetryAfter(wait) as real).Allowed?
    ensures RetryAfter(wait) == 1 || RetryAfter(wait) as real - 1.0 < wait
  {
    assert past + [] == past;
    WaitIsExact(limit, window, past, [], key, now, wait, now + RetryAfter(wait) as real);
  }
}
