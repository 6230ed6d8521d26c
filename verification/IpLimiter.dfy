/** The in-process limiter of internal/security/security.go: a map of buckets, swept of idle keys on every
    1024th call. */
module IpLimiter {
  import opened Common
  import opened TokenBucket

  const SECOND := 1_000_000_000
  const IDLE := 600 * SECOND
  const SWEEP_EVERY := 1024
  const TWO_TO_THE_64 := 0x1_0000_0000_0000_0000

  datatype Entry = Entry(bucket: Bucket, seen: int)

  /** `retry` is a duration in nanoseconds, cut off to a whole number. */
  datatype Memory = Memory(entries: map<string, Entry>, operations: nat)

  const EMPTY := Memory(map[], 0)

  predicate Accepted(p: Plan) { p.Valid() && p.ticksPerSecond == SECOND }

  function Stored(entries: map<string, Entry>, key: string): Option<Bucket> {
    if key in entries then Some(entries[key].bucket) else None
  }

  function VerdictFor(p: Plan, level: real): Answer
    requires Accepted(p)
  {
    if level >= 1.0 then Answer(true, 0) else Answer(false, Wait(p, 1.0 - level).Floor)
  }

  /** A sweep keeps the keys seen within the last ten minutes. */
  function Swept(entries: map<string, Entry>, now: int): map<string, Entry> {
    map k | k in entries && now - entries[k].seen <= IDLE :: entries[k]
  }

  /** What one call leaves behind. */
  function Called(p: Plan, m: Memory, r: Request): Memory
    requires Accepted(p)
  {
    var entries := m.entries[r.key := Entry(Next(p, Stored(m.entries, r.key), r.at), r.at)];
    var operations := (m.operations + 1) % TWO_TO_THE_64;
    Memory(if operations % SWEEP_EVERY == 0 then Swept(entries, r.at) else entries, operations)
  }

  class Limiter {
    const plan: Plan
    var buckets: map<string, Entry>
    var operations: nat

    constructor (p: Plan)
      requires Accepted(p)
      ensures plan == p && Contents() == EMPTY
    {
      plan, buckets, operations := p, map[], 0;
    }

    function Contents(): Memory
      reads this
    {
      Memory(buckets, operations)
    }

    method Allow(key: string, now: int) returns (allowed: bool, retry: int)
      requires Accepted(plan)
      modifies this
      ensures Contents() == Called(plan, old(Contents()), Request(key, now))
      ensures Answer(allowed, retry) == VerdictFor(plan, Level(plan, Stored(old(buckets), key), now))
      ensures if operations % 1024 != 0 then buckets.Keys == old(buckets).Keys + {key}
        else forall k | k in old(buckets) && k != key :: k in buckets <==> now - old(buckets)[k].seen <= 600 * SECOND
    {
      var entry := if key in buckets then buckets[key] else Entry(Bucket(plan.burst as real, now), now);
      var elapsed := now - entry.bucket.updated;
      if elapsed < 0 { elapsed := 0; }
      var tokens := Min(plan.burst as real, entry.bucket.tokens + Gain(plan, elapsed));
      assert tokens == Level(plan, Stored(buckets, key), now) by {
        assert Gain(plan, 0) == 0.0 by { assert plan.rate * 0.0 == 0.0; }
      }
      allowed := tokens >= 1.0;
      retry := 0;
      if allowed {
        tokens := tokens - 1.0;
      } else {
        retry := Wait(plan, 1.0 - tokens).Floor;
      }
      buckets := buckets[key := Entry(Bucket(tokens, now), now)];
      operations := (operations + 1) % TWO_TO_THE_64;
      if operations % SWEEP_EVERY == 0 { Sweep(now); }
    }

    method Sweep(now: int)
      modifies this`buckets
      ensures buckets == Swept(old(buckets), now)
    {
      var left := buckets.Keys;
      ghost var before := buckets;
      while left != {}
        invariant left <= before.Keys
        invariant buckets == map k | k in before && (k in left || now - before[k].seen <= IDLE) :: before[k]
        decreases |left|
      {
        var item :| item in left;
        if now - buckets[item].seen > IDLE { buckets := buckets - {item}; }
        left := left - {item};
      }
    }
  }

  /** The verdicts of a run. */
  function Verdicts(p: Plan, m: Memory, requests: seq<Request>): (verdicts: seq<Answer>)
    requires Accepted(p)
    ensures |verdicts| == |requests|
    decreases |requests|
  {
    if requests == [] then []
    else
      var r := requests[0];
      [VerdictFor(p, Level(p, Stored(m.entries, r.key), r.at))] + Verdicts(p, Called(p, m, r), requests[1..])
  }

  function IdealVerdicts(p: Plan, m: map<string, Bucket>, requests: seq<Request>): (verdicts: seq<Answer>)
    requires Accepted(p)
    ensures |verdicts| == |requests|
  {
    var levels := IdealLevels(p, m, requests);
    seq(|requests|, i requires 0 <= i < |levels| => VerdictFor(p, levels[i]))
  }

  /** A bucket left alone long enough to be swept has been refilled completely. */
  predicate SweptOnlyWhenFull(p: Plan)
    requires Accepted(p)
  {
    p.burst as real <= Gain(p, IDLE + 1)
  }

  /** The sweeping limiter knows the same buckets, except for full ones. */
  ghost predicate Refines(p: Plan, entries: map<string, Entry>, ideal: map<string, Bucket>, now: int)
    requires Accepted(p)
  {
    && Stocked(ideal, now)
    && (forall k | k in entries :: k in ideal && entries[k] == Entry(ideal[k], ideal[k].updated))
    && (forall k | k in ideal && k !in entries :: Level(p, Some(ideal[k]), now) == p.burst as real)
  }

  lemma StaysFull(p: Plan, b: Bucket, now: int, later: int)
    requires Accepted(p) && b.updated <= now <= later && Level(p, Some(b), now) == p.burst as real
    ensures Level(p, Some(b), later) == p.burst as real
  {
    LevelGrows(p, Some(b), now, later);
  }

  lemma FullWhenSwept(p: Plan, b: Bucket, now: int)
    requires Accepted(p) && SweptOnlyWhenFull(p) && 0.0 <= b.tokens && now - b.updated > IDLE
    ensures Level(p, Some(b), now) == p.burst as real
  {
    GainGrows(p, IDLE + 1, now - b.updated);
  }

  /** A call finds the same level with and without the forgotten buckets, and keeps the refinement. */
  lemma CallRefines(p: Plan, m: Memory, ideal: map<string, Bucket>, now: int, r: Request)
    requires Accepted(p) && SweptOnlyWhenFull(p) && Refines(p, m.entries, ideal, now) && now <= r.at
    ensures Level(p, Stored(m.entries, r.key), r.at) == Level(p, Lookup(ideal, r.key), r.at)
    ensures Refines(p, Called(p, m, r).entries, ideal[r.key := Next(p, Lookup(ideal, r.key), r.at)], r.at)
  {
    hide Gain;
    if r.key in ideal && r.key !in m.entries { StaysFull(p, ideal[r.key], now, r.at); }
    SpendBounds(p, Lookup(ideal, r.key), r.at);
    assert Next(p, Stored(m.entries, r.key), r.at) == Next(p, Lookup(ideal, r.key), r.at);
    var entries := Called(p, m, r).entries;
    forall k | k in ideal && k != r.key && k !in entries
      ensures Level(p, Some(ideal[k]), r.at) == p.burst as real
    {
      if k in m.entries {
        FullWhenSwept(p, ideal[k], r.at);
      } else {
        StaysFull(p, ideal[k], now, r.at);
      }
    }
  }

  lemma {:induction false} RunRefines(p: Plan, m: Memory, ideal: map<string, Bucket>, now: int, requests: seq<Request>)
    requires Accepted(p) && SweptOnlyWhenFull(p) && Refines(p, m.entries, ideal, now)
    requires NonDecreasing(requests) && NoEarlierThan(requests, now)
    ensures Verdicts(p, m, requests) == IdealVerdicts(p, ideal, requests)
    decreases |requests|
  {
    hide Refines, Level, Gain, Called, SweptOnlyWhenFull;
    if requests != [] {
      var r := requests[0];
      CallRefines(p, m, ideal, now, r);
      RunRefines(p, Called(p, m, r), ideal[r.key := Next(p, Lookup(ideal, r.key), r.at)], r.at, requests[1..]);
    }
  }

  // ---------------------------------------------------------------- a limiter that forgets too early

  function Repeat(key: string, at: int, n: nat): (requests: seq<Request>)
    ensures |requests| == n && NonDecreasing(requests)
    ensures forall i | 0 <= i < n :: requests[i] == Request(key, at)
  {
    seq(n, _ => Request(key, at))
  }

  function After(p: Plan, m: Memory, requests: seq<Request>): Memory
    requires Accepted(p)
    decreases |requests|
  {
    if requests == [] then m else After(p, Called(p, m, requests[0]), requests[1..])
  }

  lemma {:induction false} VerdictsAppend(p: Plan, m: Memory, a: seq<Request>, b: seq<Request>)
    requires Accepted(p)
    ensures Verdicts(p, m, a + b) == Verdicts(p, m, a) + Verdicts(p, After(p, m, a), b)
    decreases |a|
  {
    hide Called, Level;
    if a == [] {
      assert a + b == b;
    } else {
      assert (a + b)[1..] == a[1..] + b;
      VerdictsAppend(p, Called(p, m, a[0]), a[1..], b);
    }
  }

  /** A key with a level of n is admitted n times in a row at the same moment. */
  lemma {:induction false} BurstAdmitted(p: Plan, m: Memory, key: string, at: int, n: nat, from: int, to: int)
    requires Accepted(p) && Level(p, Stored(m.entries, key), at) >= n as real && from <= at <= to
    ensures Admitted(Repeat(key, at, n), Verdicts(p, m, Repeat(key, at, n)), key, from, to) == n
    decreases n
  {
    if n > 0 {
      var r := Request(key, at);
      var next := Called(p, m, r);
      assert Repeat(key, at, n)[1..] == Repeat(key, at, n - 1);
      assert Stored(next.entries, key) == Some(Next(p, Stored(m.entries, key), at));
      assert Gain(p, 0) == 0.0 by { assert p.rate * 0.0 == 0.0; }
      BurstAdmitted(p, next, key, at, n - 1, from, to);
    }
  }

  predicate Idle(m: Memory, key: string, at: int) {
    key in m.entries ==> at - m.entries[key].seen > IDLE
  }

  /** Calls for another key, up to the next multiple of 1024, sweep an idle key. */
  lemma WholeSweeps(r: nat, k: nat)
    ensures (r + SWEEP_EVERY * k) % SWEEP_EVERY == r % SWEEP_EVERY
  {
  }

  /** The counter wraps at a multiple of the sweep interval. */
  lemma CountsModulo(n: nat)
    ensures ((n + 1) % TWO_TO_THE_64) % SWEEP_EVERY == (n + 1) % SWEEP_EVERY
  {
    var q, r := (n + 1) / TWO_TO_THE_64, (n + 1) % TWO_TO_THE_64;
    WholeSweeps(r, q * 0x40_0000_0000_0000);
    assert n + 1 == r + SWEEP_EVERY * (q * 0x40_0000_0000_0000);
  }

  /** What one call does to the counter and to the keys. */
  lemma CallLeaves(p: Plan, m: Memory, r: Request)
    requires Accepted(p)
    ensures var next := Called(p, m, r);
      && next.operations % SWEEP_EVERY == (m.operations + 1) % SWEEP_EVERY
      && (r.key in next.entries ==> next.entries[r.key].seen == r.at)
      && (forall k | k in next.entries && k != r.key :: k in m.entries && next.entries[k] == m.entries[k])
      && ((m.operations + 1) % SWEEP_EVERY == 0 ==> forall k | k in next.entries :: r.at - next.entries[k].seen <= IDLE)
  {
    CountsModulo(m.operations);
    hide Next;
  }

  lemma RepeatFirst(key: string, at: int, n: nat)
    requires n > 0
    ensures Repeat(key, at, n)[0] == Request(key, at) && Repeat(key, at, n)[1..] == Repeat(key, at, n - 1)
  {
  }

  lemma Continue(p: Plan, m: Memory, key: string, at: int, n: nat)
    requires Accepted(p)
    ensures After(p, m, Repeat(key, at, n)) == if n == 0 then m
      else After(p, Called(p, m, Request(key, at)), Repeat(key, at, n - 1))
  {
    hide Called;
    if n > 0 { RepeatFirst(key, at, n); }
  }

  /** Calls for another key, up to the next multiple of 1024, sweep an idle key. */
  lemma {:induction false} FillerSweeps(p: Plan, m: Memory, key: string, other: string, at: int, n: nat)
    requires Accepted(p) && key != other && Idle(m, key, at)
    requires 1 <= n <= SWEEP_EVERY && (m.operations + n) % SWEEP_EVERY == 0
    ensures key !in After(p, m, Repeat(other, at, n)).entries
    decreases n
  {
    hide Called, After, Repeat;
    var next := Called(p, m, Request(other, at));
    CallLeaves(p, m, Request(other, at));
    Continue(p, m, other, at, n);
    if n > 1 {
      FillerSweeps(p, next, key, other, at, n - 1);
    } else {
      Continue(p, next, other, at, 0);
    }
  }

  lemma {:induction false} BurstLeaves(p: Plan, m: Memory, key: string, at: int, n: nat)
    requires Accepted(p) && (key in m.entries ==> m.entries[key].seen <= at)
    ensures var after := After(p, m, Repeat(key, at, n));
      && (key in after.entries ==> after.entries[key].seen <= at)
      && after.operations % SWEEP_EVERY == (m.operations + n) % SWEEP_EVERY
    decreases n
  {
    hide Called, After, Repeat;
    Continue(p, m, key, at, n);
    if n > 0 {
      CallLeaves(p, m, Request(key, at));
      BurstLeaves(p, Called(p, m, Request(key, at)), key, at, n - 1);
    }
  }

  /** A burst at time 0, other traffic until a sweep just after ten minutes, and a burst again. */
  function TwoBursts(p: Plan): seq<Request> {
    Repeat("a", 0, p.burst) + (Repeat("b", IDLE + 1, SWEEP_EVERY - p.burst % SWEEP_EVERY) +
      Repeat("a", IDLE + 1, p.burst))
  }

  lemma TwoBurstsInOrder(p: Plan)
    ensures NonDecreasing(TwoBursts(p)) && NoEarlierThan(TwoBursts(p), 0)
  {
  }

  /** The sweep gives the key its burst back: both bursts are admitted in full. */
  lemma BothBurstsAdmitted(p: Plan)
    requires Accepted(p)
    ensures Admitted(TwoBursts(p), Verdicts(p, EMPTY, TwoBursts(p)), "a", 0, IDLE + 1) >= 2 * p.burst
  {
    hide Verdicts, After, Admitted, Level, Gain;
    var n := SWEEP_EVERY - p.burst % SWEEP_EVERY;
    var first, filler, second := Repeat("a", 0, p.burst), Repeat("b", IDLE + 1, n), Repeat("a", IDLE + 1, p.burst);
    var m1 := After(p, EMPTY, first);
    var m2 := After(p, m1, filler);
    BurstLeaves(p, EMPTY, "a", 0, p.burst);
    assert (m1.operations + n) % SWEEP_EVERY == 0 by { RoundsUp(p.burst, m1.operations); }
    FillerSweeps(p, m1, "a", "b", IDLE + 1, n);
    EmptyIsFull(p, EMPTY, "a", 0);
    EmptyIsFull(p, m2, "a", IDLE + 1);
    BurstAdmitted(p, EMPTY, "a", 0, p.burst, 0, IDLE + 1);
    BurstAdmitted(p, m2, "a", IDLE + 1, p.burst, 0, IDLE + 1);
    VerdictsAppend(p, EMPTY, first, filler + second);
    VerdictsAppend(p, m1, filler, second);
    var v1, v2, v3 := Verdicts(p, EMPTY, first), Verdicts(p, m1, filler), Verdicts(p, m2, second);
    AdmittedAppend(first, v1, filler + second, v2 + v3, "a", 0, IDLE + 1);
    AdmittedAppend(filler, v2, second, v3, "a", 0, IDLE + 1);
  }

  lemma EmptyIsFull(p: Plan, m: Memory, key: string, at: int)
    requires Accepted(p) && key !in m.entries
    ensures Level(p, Stored(m.entries, key), at) == p.burst as real
  {
  }

  lemma RoundsUp(burst: nat, operations: nat)
    requires operations % SWEEP_EVERY == burst % SWEEP_EVERY
    ensures (operations + (SWEEP_EVERY - burst % SWEEP_EVERY)) % SWEEP_EVERY == 0
  {
  }

  /** Admissions of every key in every window stay within the bucket's promise. */
  ghost predicate KeepsBound(p: Plan, requests: seq<Request>)
    requires Accepted(p)
  {
    forall key: string, from: int, to: int | from <= to ::
      Admitted(requests, Verdicts(p, EMPTY, requests), key, from, to) as real <= p.burst as real + Gain(p, to - from)
  }

  lemma IdealKeepsBound(p: Plan, requests: seq<Request>)
    requires Accepted(p) && NonDecreasing(requests) && Verdicts(p, EMPTY, requests) == IdealVerdicts(p, map[], requests)
    ensures KeepsBound(p, requests)
  {
    hide Gain, Verdicts, IdealLevels, Admitted, Admissions;
    forall key: string, from: int, to: int | from <= to
      ensures Admitted(requests, Verdicts(p, EMPTY, requests), key, from, to) as real <= p.burst as real +
        Gain(p, to - from)
    {
      var levels := IdealLevels(p, map[], requests);
      SameAdmissions(requests, levels, Verdicts(p, EMPTY, requests), key, from, to);
      WindowBound(p, map[], requests, key, from, to, if requests == [] then 0 else requests[0].at);
    }
  }

  lemma TwoBurstsOverrun(p: Plan)
    requires Accepted(p) && !SweptOnlyWhenFull(p)
    ensures !KeepsBound(p, TwoBursts(p))
  {
    hide Verdicts, Admitted, Gain, TwoBursts;
    BothBurstsAdmitted(p);
    assert Admitted(TwoBursts(p), Verdicts(p, EMPTY, TwoBursts(p)), "a", 0, IDLE + 1) as real > p.burst as real +
      Gain(p, IDLE + 1 - 0);
  }

  lemma RunAgrees(p: Plan, requests: seq<Request>)
    requires Accepted(p) && SweptOnlyWhenFull(p) && NonDecreasing(requests)
    ensures Verdicts(p, EMPTY, requests) == IdealVerdicts(p, map[], requests)
  {
    RunRefines(p, EMPTY, map[], if requests == [] then 0 else requests[0].at, requests);
  }

  /** The sweep never changes an answer, in any run with a nondecreasing clock, exactly when a bucket fills
      up before it can be swept. */
  lemma SweepingIsInvisible(p: Plan)
    requires Accepted(p)
    ensures SweptOnlyWhenFull(p) <==>
      forall requests | NonDecreasing(requests) :: Verdicts(p, EMPTY, requests) == IdealVerdicts(p, map[], requests)
  {
    hide SweptOnlyWhenFull, Verdicts, IdealVerdicts, KeepsBound, TwoBursts, NonDecreasing;
    if SweptOnlyWhenFull(p) {
      forall requests | NonDecreasing(requests)
        ensures Verdicts(p, EMPTY, requests) == IdealVerdicts(p, map[], requests)
      {
        RunAgrees(p, requests);
      }
    } else {
      TwoBurstsInOrder(p);
      TwoBurstsOverrun(p);
      if Verdicts(p, EMPTY, TwoBursts(p)) == IdealVerdicts(p, map[], TwoBursts(p)) {
        IdealKeepsBound(p, TwoBursts(p));
      }
    }
  }

  /** The rate limit itself holds under the same condition, and is broken by a run without it. */
  lemma RateIsLimited(p: Plan)
    requires Accepted(p)
    ensures SweptOnlyWhenFull(p) <==> forall requests | NonDecreasing(requests) :: KeepsBound(p, requests)
  {
    hide SweptOnlyWhenFull, Verdicts, IdealVerdicts, KeepsBound, TwoBursts, NonDecreasing;
    if SweptOnlyWhenFull(p) {
      forall requests | NonDecreasing(requests) ensures KeepsBound(p, requests) {
        RunAgrees(p, requests);
        IdealKeepsBound(p, requests);
      }
    } else {
      TwoBurstsInOrder(p);
      TwoBurstsOverrun(p);
    }
  }

  /** In numbers: the burst is at most what ten minutes and a nanosecond earn. */
  lemma TenMinutesExactly(p: Plan)
    requires Accepted(p)
    ensures SweptOnlyWhenFull(p) <==> p.burst as real <= p.rate * 600.000_000_001
  {
    GainAdds(p, IDLE, 1);
    SecondsEarnRate(p, 600);
    assert Gain(p, 1) == p.rate * 0.000_000_001;
  }

  /** The returned wait is cut off to whole nanoseconds: it is enough exactly when nothing was cut off,
      and one nanosecond more always is. */
  lemma RetryIsEnough(p: Plan, entries: map<string, Entry>, key: string, now: int)
    requires Accepted(p) && Level(p, Stored(entries, key), now) < 1.0
    ensures var level := Level(p, Stored(entries, key), now);
      var retry := VerdictFor(p, level).retry;
      var after := Some(Next(p, Stored(entries, key), now));
      && 0 <= retry
      && (Level(p, after, now + retry) >= 1.0 <==> Wait(p, 1.0 - level) == retry as real)
      && Level(p, after, now + retry + 1) >= 1.0
  {
    hide Gain;
    var b := Stored(entries, key);
    var missing := 1.0 - Level(p, b, now);
    var retry := Wait(p, missing).Floor;
    assert 0.0 <= Wait(p, missing) by { assert 0.0 <= missing / p.rate; }
    AdmittedAfter(p, b, now, retry);
    AdmittedAfter(p, b, now, retry + 1);
    WaitEarns(p, missing, retry);
    WaitEarns(p, missing, retry + 1);
    assert now + (retry + 1) == now + retry + 1;
  }
}
