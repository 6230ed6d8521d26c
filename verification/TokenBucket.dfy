/** The ideal token bucket that both rate limiters stand in for: one bucket per key, never forgotten.
    Time is in whole ticks (nanoseconds in process, milliseconds in Redis), tokens are real numbers. */
module TokenBucket {
  import opened Common

  /** The settings a limiter is accepted with: a positive rate per second and a burst of at least one. */
  datatype Plan = Plan(rate: real, burst: nat, ticksPerSecond: nat) {
    predicate Valid() { rate > 0.0 && burst >= 1 && ticksPerSecond >= 1 }
  }

  datatype Bucket = Bucket(tokens: real, updated: int)

  datatype Request = Request(key: string, at: int)

  datatype Answer = Answer(allowed: bool, retry: int)

  function Min(a: real, b: real): real { if a < b then a else b }

  function Lookup(m: map<string, Bucket>, key: string): Option<Bucket> {
    if key in m then Some(m[key]) else None
  }

  /** Tokens that `ticks` of waiting earn. */
  function Gain(p: Plan, ticks: int): real
    requires p.Valid()
  {
    p.rate * ticks as real / p.ticksPerSecond as real
  }

  lemma GainAdds(p: Plan, a: int, b: int)
    requires p.Valid()
    ensures Gain(p, a + b) == Gain(p, a) + Gain(p, b)
  {
    var r, x, y, n := p.rate, a as real, b as real, p.ticksPerSecond as real;
    assert r * (x + y) == r * x + r * y;
    assert (r * x + r * y) / n == r * x / n + r * y / n;
  }

  /** A second earns the rate, and what is earned adds up, so waiting earns in proportion. */
  lemma SecondsEarnRate(p: Plan, seconds: nat)
    requires p.Valid()
    ensures Gain(p, seconds * p.ticksPerSecond) == seconds as real * p.rate
  {
    var s, n, r := seconds as real, p.ticksPerSecond as real, p.rate;
    assert (seconds * p.ticksPerSecond) as real == s * n;
    assert r * (s * n) == (s * r) * n;
    assert (s * r) * n / n == s * r;
  }

  lemma GainGrows(p: Plan, a: int, b: int)
    requires p.Valid() && a <= b
    ensures Gain(p, a) <= Gain(p, b)
    ensures 0 <= a ==> 0.0 <= Gain(p, a)
  {
    GainAdds(p, a, b - a);
    GainNotNegative(p, b - a);
    if 0 <= a { GainNotNegative(p, a); }
  }

  lemma GainNotNegative(p: Plan, a: nat)
    requires p.Valid()
    ensures 0.0 <= Gain(p, a)
  {
    assert p.rate * a as real >= 0.0;
  }

  /** The level a request finds: a new key starts full, a known one is refilled up to the burst. */
  function Level(p: Plan, b: Option<Bucket>, at: int): real
    requires p.Valid()
  {
    match b
    case None => p.burst as real
    case Some(bucket) =>
      var elapsed := if at < bucket.updated then 0 else at - bucket.updated;
      Min(p.burst as real, bucket.tokens + Gain(p, elapsed))
  }

  /** One token per admitted request. */
  function Spend(level: real): real {
    if level >= 1.0 then level - 1.0 else level
  }

  function Next(p: Plan, b: Option<Bucket>, at: int): Bucket
    requires p.Valid()
  {
    Bucket(Spend(Level(p, b, at)), at)
  }

  /** The level each request finds in a limiter that never forgets a key. */
  function IdealLevels(p: Plan, m: map<string, Bucket>, requests: seq<Request>): (levels: seq<real>)
    requires p.Valid()
    ensures |levels| == |requests|
    decreases |requests|
  {
    if requests == [] then []
    else
      var r, b := requests[0], Lookup(m, requests[0].key);
      [Level(p, b, r.at)] + IdealLevels(p, m[r.key := Next(p, b, r.at)], requests[1..])
  }

  predicate NonDecreasing(requests: seq<Request>) {
    forall i, j | 0 <= i < j < |requests| :: requests[i].at <= requests[j].at
  }

  predicate NoEarlierThan(requests: seq<Request>, at: int) {
    forall i | 0 <= i < |requests| :: at <= requests[i].at
  }

  /** Admissions of one key between two times, counted on the level that each request found. */
  function Admissions(requests: seq<Request>, levels: seq<real>, key: string, from: int, to: int): nat
    requires |requests| == |levels|
  {
    if requests == [] then 0
    else
      var r := requests[0];
      var here := if r.key == key && from <= r.at <= to && levels[0] >= 1.0 then 1 else 0;
      here + Admissions(requests[1..], levels[1..], key, from, to)
  }

  /** The same, counted on the answers given. */
  function Admitted(requests: seq<Request>, answers: seq<Answer>, key: string, from: int, to: int): nat
    requires |requests| == |answers|
  {
    if requests == [] then 0
    else
      var r := requests[0];
      var here := if r.key == key && from <= r.at <= to && answers[0].allowed then 1 else 0;
      here + Admitted(requests[1..], answers[1..], key, from, to)
  }

  lemma {:induction false} AdmittedAppend(
      a: seq<Request>, answersA: seq<Answer>, b: seq<Request>, answersB: seq<Answer>, key: string, from: int, to: int)
    requires |a| == |answersA| && |b| == |answersB|
    ensures Admitted(a + b, answersA + answersB, key, from, to) ==
      Admitted(a, answersA, key, from, to) + Admitted(b, answersB, key, from, to)
  {
    if a == [] {
      assert a + b == b && answersA + answersB == answersB;
    } else {
      assert (a + b)[1..] == a[1..] + b && (answersA + answersB)[1..] == answersA[1..] + answersB;
      AdmittedAppend(a[1..], answersA[1..], b, answersB, key, from, to);
    }
  }

  /** Answers given on levels admit what the levels admit. */
  lemma {:induction false} SameAdmissions(
      requests: seq<Request>, levels: seq<real>, answers: seq<Answer>, key: string, from: int, to: int)
    requires |requests| == |levels| == |answers|
    requires forall i | 0 <= i < |levels| :: answers[i].allowed <==> levels[i] >= 1.0
    ensures Admitted(requests, answers, key, from, to) == Admissions(requests, levels, key, from, to)
  {
    if requests != [] { SameAdmissions(requests[1..], levels[1..], answers[1..], key, from, to); }
  }

  predicate Stocked(m: map<string, Bucket>, now: int) {
    forall k | k in m :: 0.0 <= m[k].tokens && m[k].updated <= now
  }

  lemma LevelGrows(p: Plan, b: Option<Bucket>, at: int, later: int)
    requires p.Valid() && at <= later && (b.Some? ==> b.value.updated <= at)
    ensures Level(p, b, later) <= Level(p, b, at) + Gain(p, later - at)
    ensures Level(p, b, at) <= Level(p, b, later)
  {
    GainNotNegative(p, later - at);
    if b.Some? {
      GainAdds(p, at - b.value.updated, later - at);
    }
  }

  lemma LevelBounds(p: Plan, b: Option<Bucket>, at: int)
    requires p.Valid() && (b.Some? ==> 0.0 <= b.value.tokens)
    ensures 0.0 <= Level(p, b, at) <= p.burst as real
  {
    if b.Some? { GainNotNegative(p, if at < b.value.updated then 0 else at - b.value.updated); }
  }

  lemma SpendBounds(p: Plan, b: Option<Bucket>, at: int)
    requires p.Valid() && (b.Some? ==> 0.0 <= b.value.tokens)
    ensures 0.0 <= Next(p, b, at).tokens
    ensures Level(p, Some(Next(p, b, at)), at) == Spend(Level(p, b, at))
  {
    LevelBounds(p, b, at);
    assert Gain(p, 0) == 0.0 by { assert p.rate * 0.0 == 0.0; }
  }

  lemma {:induction false} NothingAfter(requests: seq<Request>, levels: seq<real>, key: string, from: int, to: int)
    requires |requests| == |levels| && forall i | 0 <= i < |requests| :: to < requests[i].at
    ensures Admissions(requests, levels, key, from, to) == 0
  {
    if requests != [] { NothingAfter(requests[1..], levels[1..], key, from, to); }
  }

  lemma LookupBounds(p: Plan, m: map<string, Bucket>, key: string, now: int)
    requires p.Valid() && Stocked(m, now)
    ensures 0.0 <= Level(p, Lookup(m, key), now) <= p.burst as real
  {
    LevelBounds(p, Lookup(m, key), now);
  }

  /** What a call takes from a key is taken from its level and its refill. */
  lemma CallPays(p: Plan, m: map<string, Bucket>, r: Request, key: string, now: int, to: int)
    requires p.Valid() && Stocked(m, now) && now <= r.at <= to
    ensures var b := Lookup(m, r.key);
      var next := m[r.key := Next(p, b, r.at)];
      && Stocked(next, r.at)
      && (if r.key == key && Level(p, b, r.at) >= 1.0 then 1.0 else 0.0) + Level(p, Lookup(next, key), r.at)
         + Gain(p, to - r.at) <= Level(p, Lookup(m, key), now) + Gain(p, to - now)
  {
    hide Level, Gain;
    SpendBounds(p, Lookup(m, r.key), r.at);
    LevelGrows(p, Lookup(m, key), now, r.at);
    GainAdds(p, r.at - now, to - r.at);
  }

  /** From a given moment on, one key is admitted no more often than its level and its refill pay for. */
  lemma {:induction false} LevelPays(p: Plan, m: map<string, Bucket>, requests: seq<Request>, key: string, from: int,
      now: int, to: int)
    requires p.Valid() && Stocked(m, now) && NonDecreasing(requests) && NoEarlierThan(requests, now)
    requires from <= now <= to
    ensures Admissions(requests, IdealLevels(p, m, requests), key, from, to) as real
         <= Level(p, Lookup(m, key), now) + Gain(p, to - now)
    decreases |requests|
  {
    hide Level, Gain, Next, Lookup;
    GainNotNegative(p, to - now);
    LookupBounds(p, m, key, now);
    if requests != [] {
      var r, b, levels := requests[0], Lookup(m, requests[0].key), IdealLevels(p, m, requests);
      if r.at > to {
        NothingAfter(requests, levels, key, from, to);
      } else {
        var next := m[r.key := Next(p, b, r.at)];
        CallPays(p, m, r, key, now, to);
        assert levels[1..] == IdealLevels(p, next, requests[1..]);
        LevelPays(p, next, requests[1..], key, from, r.at, to);
      }
    }
  }

  /** In every window, a key is admitted at most a burst plus what the window earns. */
  lemma {:induction false} WindowBound(p: Plan, m: map<string, Bucket>, requests: seq<Request>, key: string, from: int,
      to: int, now: int)
    requires p.Valid() && Stocked(m, now) && NonDecreasing(requests) && NoEarlierThan(requests, now) && from <= to
    ensures Admissions(requests, IdealLevels(p, m, requests), key, from, to) as real <= p.burst as real +
      Gain(p, to - from)
    decreases |requests|
  {
    hide Level, Gain;
    GainNotNegative(p, to - from);
    if requests != [] {
      var r, b, levels := requests[0], Lookup(m, requests[0].key), IdealLevels(p, m, requests);
      if r.at < from {
        var next := m[r.key := Next(p, b, r.at)];
        SpendBounds(p, b, r.at);
        assert levels[1..] == IdealLevels(p, next, requests[1..]);
        WindowBound(p, next, requests[1..], key, from, to, r.at);
      } else if r.at > to {
        NothingAfter(requests, levels, key, from, to);
      } else {
        LevelPays(p, m, requests, key, from, r.at, to);
        LevelBounds(p, Lookup(m, key), r.at);
        GainAdds(p, r.at - from, to - r.at);
        GainNotNegative(p, r.at - from);
      }
    }
  }

  /** A call whose clock is not ahead of the key's last call finds what that call left. */
  lemma EarlierClockEarnsNothing(p: Plan, b: Option<Bucket>, at: int, earlier: int)
    requires p.Valid() && earlier <= at && (b.Some? ==> 0.0 <= b.value.tokens)
    ensures var level := Level(p, b, at);
      Level(p, Some(Next(p, b, at)), earlier) == if level >= 1.0 then level - 1.0 else level
  {
    LevelBounds(p, b, at);
    assert Gain(p, 0) == 0.0 by { assert p.rate * 0.0 == 0.0; }
  }

  /** A refused key is admitted again exactly once the missing part of a token has been earned. */
  lemma AdmittedAfter(p: Plan, b: Option<Bucket>, at: int, wait: nat)
    requires p.Valid() && Level(p, b, at) < 1.0
    ensures Level(p, Some(Next(p, b, at)), at + wait) >= 1.0 <==> Gain(p, wait) >= 1.0 - Level(p, b, at)
  {
  }

  /** The wait that earns `missing` tokens, in ticks. */
  function Wait(p: Plan, missing: real): real
    requires p.Valid()
  {
    missing / p.rate * p.ticksPerSecond as real
  }

  lemma WaitEarns(p: Plan, missing: real, ticks: int)
    requires p.Valid()
    ensures Gain(p, ticks) >= missing <==> ticks as real >= Wait(p, missing)
  {
    var t, n, r := ticks as real, p.ticksPerSecond as real, p.rate;
    var w := Wait(p, missing);
    assert r * w / n == missing by {
      assert r * (missing / r) == missing;
      assert r * w == missing * n by { assert r * (missing / r * n) == (r * (missing / r)) * n; }
    }
    if t >= w {
      assert r * t >= r * w;
      assert r * t / n >= r * w / n;
    } else {
      assert r * t < r * w;
      assert r * t / n < r * w / n;
    }
  }
}
