/** The shared limiter of internal/security/redis_limiter.go: one hash per key with an expiry, in whole
    milliseconds of the server's clock. */
module RedisLimiter {
  import opened Common
  import opened TokenBucket

  predicate Accepted(p: Plan) { p.Valid() && p.ticksPerSecond == 1000 }

  /** The hash of a key, and the moment from which the server may drop it. */
  datatype Hash = Hash(bucket: Bucket, expireAt: int)

  /** The smallest whole number that is not below r. */
  function Ceil(r: real): int { -((-r).Floor) }

  /** Two refills of the whole burst in whole seconds, and at least a minute. */
  function Ttl(p: Plan): int
    requires Accepted(p)
  {
    var seconds := Ceil(p.burst as real / p.rate * 2.0);
    1000 * (if seconds < 60 then 60 else seconds)
  }

  function Stored(keys: map<string, Hash>, key: string): Option<Bucket> {
    if key in keys then Some(keys[key].bucket) else None
  }

  function AnswerFor(p: Plan, level: real): Answer
    requires Accepted(p)
  {
    if level >= 1.0 then Answer(true, 0) else Answer(false, Ceil(Wait(p, 1.0 - level)))
  }

  /** A script call, or the server dropping an expired key. */
  datatype Event = Call(request: Request) | Expire(key: string, at: int)

  function Time(e: Event): int { match e case Call(r) => r.at case Expire(_, at) => at }

  function After(p: Plan, keys: map<string, Hash>, e: Event): map<string, Hash>
    requires Accepted(p)
  {
    match e
    case Call(r) => keys[r.key := Hash(Next(p, Stored(keys, r.key), r.at), r.at + Ttl(p))]
    case Expire(key, _) => keys - {key}
  }

  class Server {
    const plan: Plan
    var keys: map<string, Hash>

    constructor (p: Plan)
      requires Accepted(p)
      ensures plan == p && keys == map[]
    {
      plan, keys := p, map[];
    }

    method Allow(key: string, now: int) returns (allowed: bool, retry: int)
      requires Accepted(plan)
      modifies this
      ensures keys == After(plan, old(keys), Call(Request(key, now)))
      ensures Answer(allowed, retry) == AnswerFor(plan, Level(plan, Stored(old(keys), key), now))
    {
      var tokens, updated := plan.burst as real, now;
      if key in keys { tokens, updated := keys[key].bucket.tokens, keys[key].bucket.updated; }
      var elapsed := if now - updated < 0 then 0 else now - updated;
      tokens := Min(plan.burst as real, tokens + Gain(plan, elapsed));
      assert tokens == Level(plan, Stored(keys, key), now) by {
        assert Gain(plan, 0) == 0.0 by { assert plan.rate * 0.0 == 0.0; }
      }
      allowed, retry := false, 0;
      if tokens >= 1.0 {
        tokens := tokens - 1.0;
        allowed := true;
      } else {
        retry := Ceil(Wait(plan, 1.0 - tokens));
      }
      keys := keys[key := Hash(Bucket(tokens, now), now + Ttl(plan))];
    }

    method Expire(key: string, now: int)
      requires Accepted(plan) && key in keys && keys[key].expireAt <= now
      modifies this
      ensures keys == After(plan, old(keys), Event.Expire(key, now))
    {
      keys := keys - {key};
    }
  }

  /** The clock does not run backwards and only expired keys are dropped. */
  predicate Legal(p: Plan, keys: map<string, Hash>, events: seq<Event>, now: int)
    requires Accepted(p)
    decreases |events|
  {
    events == [] ||
    (&& now <= Time(events[0])
     && (events[0].Expire? ==> events[0].key in keys && keys[events[0].key].expireAt <= events[0].at)
     && Legal(p, After(p, keys, events[0]), events[1..], Time(events[0])))
  }

  function Requests(events: seq<Event>): seq<Request> {
    if events == [] then []
    else (if events[0].Call? then [events[0].request] else []) + Requests(events[1..])
  }

  function Answers(p: Plan, keys: map<string, Hash>, events: seq<Event>): seq<Answer>
    requires Accepted(p)
    decreases |events|
  {
    if events == [] then []
    else
      var rest := Answers(p, After(p, keys, events[0]), events[1..]);
      match events[0]
      case Call(r) => [AnswerFor(p, Level(p, Stored(keys, r.key), r.at))] + rest
      case Expire(_, _) => rest
  }

  function IdealAnswers(p: Plan, m: map<string, Bucket>, requests: seq<Request>): seq<Answer>
    requires Accepted(p)
  {
    var levels := IdealLevels(p, m, requests);
    seq(|requests|, i requires 0 <= i < |levels| => AnswerFor(p, levels[i]))
  }

  /** An idle bucket is full, twice over, before its key may be dropped. */
  lemma TtlRefills(p: Plan)
    requires Accepted(p)
    ensures Gain(p, Ttl(p)) >= 2.0 * p.burst as real && Ttl(p) >= 60_000 && Ttl(p) % 1000 == 0
  {
    var need := p.burst as real / p.rate;
    assert need > 0.0;
    assert Ceil(need * 2.0) as real >= need * 2.0;
    assert Ttl(p) as real >= 1000.0 * (need * 2.0);
    assert 2.0 * p.burst as real / p.rate == need * 2.0;
    assert Wait(p, 2.0 * p.burst as real) == need * 2.0 * 1000.0;
    WaitEarns(p, 2.0 * p.burst as real, Ttl(p));
  }

  /** The server knows the ideal buckets, except for full ones, and drops no key before its bucket is full. */
  ghost predicate Refines(p: Plan, keys: map<string, Hash>, ideal: map<string, Bucket>, now: int)
    requires Accepted(p)
  {
    && Stocked(ideal, now)
    && (forall k | k in keys :: k in ideal && keys[k] == Hash(ideal[k], ideal[k].updated + Ttl(p)))
    && (forall k | k in ideal && k !in keys :: Level(p, Some(ideal[k]), now) == p.burst as real)
  }

  lemma StaysFull(p: Plan, b: Bucket, now: int, later: int)
    requires Accepted(p) && b.updated <= now <= later && Level(p, Some(b), now) == p.burst as real
    ensures Level(p, Some(b), later) == p.burst as real
  {
    LevelGrows(p, Some(b), now, later);
  }

  lemma Later(p: Plan, keys: map<string, Hash>, ideal: map<string, Bucket>, now: int, later: int)
    requires Accepted(p) && Refines(p, keys, ideal, now) && now <= later
    ensures Refines(p, keys, ideal, later)
  {
    hide Level, Ttl;
    forall k | k in ideal && k !in keys ensures Level(p, Some(ideal[k]), later) == p.burst as real {
      StaysFull(p, ideal[k], now, later);
    }
  }

  lemma ExpireRefines(p: Plan, keys: map<string, Hash>, ideal: map<string, Bucket>, key: string, now: int)
    requires Accepted(p) && Refines(p, keys, ideal, now) && key in keys && keys[key].expireAt <= now
    ensures Refines(p, keys - {key}, ideal, now)
  {
    hide Ttl;
    var b := ideal[key];
    TtlRefills(p);
    GainGrows(p, Ttl(p), now - b.updated);
  }

  lemma CallRefines(p: Plan, keys: map<string, Hash>, ideal: map<string, Bucket>, r: Request)
    requires Accepted(p) && Refines(p, keys, ideal, r.at)
    ensures Level(p, Stored(keys, r.key), r.at) == Level(p, Lookup(ideal, r.key), r.at)
    ensures Refines(p, After(p, keys, Call(r)), ideal[r.key := Next(p, Lookup(ideal, r.key), r.at)], r.at)
  {
    hide Gain, Ttl;
    SpendBounds(p, Lookup(ideal, r.key), r.at);
  }

  /** Expiry is never observable: every run answers as a limiter that forgets nothing. */
  lemma {:induction false} ExpiryIsInvisible(p: Plan, keys: map<string, Hash>, ideal: map<string, Bucket>,
      events: seq<Event>, now: int)
    requires Accepted(p) && Refines(p, keys, ideal, now) && Legal(p, keys, events, now)
    ensures Answers(p, keys, events) == IdealAnswers(p, ideal, Requests(events))
    decreases |events|
  {
    hide Refines, Level, Ttl;
    if events != [] {
      var e := events[0];
      Later(p, keys, ideal, now, Time(e));
      match e
      case Call(r) =>
        CallRefines(p, keys, ideal, r);
        ExpiryIsInvisible(p, After(p, keys, e), ideal[r.key := Next(p, Lookup(ideal, r.key), r.at)], events[1..], r.at);
        IdealFirst(p, ideal, r, Requests(events[1..]));
      case Expire(key, at) =>
        ExpireRefines(p, keys, ideal, key, at);
        ExpiryIsInvisible(p, After(p, keys, e), ideal, events[1..], at);
        assert Requests(events) == Requests(events[1..])
          && Answers(p, keys, events) == Answers(p, After(p, keys, e), events[1..]);
    }
  }

  lemma IdealFirst(p: Plan, m: map<string, Bucket>, r: Request, rest: seq<Request>)
    requires Accepted(p)
    ensures IdealAnswers(p, m, [r] + rest) ==
      [AnswerFor(p, Level(p, Lookup(m, r.key), r.at))] +
        IdealAnswers(p, m[r.key := Next(p, Lookup(m, r.key), r.at)], rest)
  {
    hide Level, Wait;
    assert ([r] + rest)[1..] == rest;
  }

  lemma FreshServerRefines(p: Plan, now: int)
    requires Accepted(p)
    ensures Refines(p, map[], map[], now)
  {
  }

  lemma {:induction false} RequestsInOrder(p: Plan, keys: map<string, Hash>, events: seq<Event>, now: int)
    requires Accepted(p) && Legal(p, keys, events, now)
    ensures NonDecreasing(Requests(events)) && NoEarlierThan(Requests(events), now)
    decreases |events|
  {
    hide Level, Ttl;
    if events != [] { RequestsInOrder(p, After(p, keys, events[0]), events[1..], Time(events[0])); }
  }

  /** Whatever expires and whenever: in every window a key is admitted at most a burst plus the refill. */
  lemma RateIsLimited(p: Plan, events: seq<Event>, start: int, key: string, from: int, to: int)
    requires Accepted(p) && Legal(p, map[], events, start) && from <= to
    ensures |Answers(p, map[], events)| == |Requests(events)|
    ensures Admitted(Requests(events), Answers(p, map[], events), key, from, to) as real <= p.burst as real +
      Gain(p, to - from)
  {
    hide Gain, Answers, Admitted, Admissions, IdealLevels, Legal, Requests;
    var requests := Requests(events);
    FreshServerRefines(p, start);
    ExpiryIsInvisible(p, map[], map[], events, start);
    RequestsInOrder(p, map[], events, start);
    SameAdmissions(requests, IdealLevels(p, map[], requests), Answers(p, map[], events), key, from, to);
    WindowBound(p, map[], requests, key, from, to, start);
  }

  /** After a refusal, with no other call for the key, a call is admitted exactly when the returned number
      of milliseconds has passed, whether or not the key has expired by then. */
  lemma RetryIsExact(p: Plan, keys: map<string, Hash>, key: string, now: int, wait: nat, expired: bool)
    requires Accepted(p) && Level(p, Stored(keys, key), now) < 1.0 && (key in keys ==> 0.0 <= keys[key].bucket.tokens)
    requires expired ==> wait >= Ttl(p)
    ensures var called := After(p, keys, Call(Request(key, now)));
      var found := if expired then After(p, called, Expire(key, now + wait)) else called;
      Level(p, Stored(found, key), now + wait) >= 1.0 <==> wait >= AnswerFor(p, Level(p, Stored(keys, key), now)).retry
  {
    hide Gain, Ttl;
    var b := Stored(keys, key);
    var missing := 1.0 - Level(p, b, now);
    AdmittedAfter(p, b, now, wait);
    WaitEarns(p, missing, wait);
    if expired {
      LevelBounds(p, b, now);
      TtlRefills(p);
      GainGrows(p, Ttl(p), wait);
    }
  }
}
