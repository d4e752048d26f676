/** The rate limiter as an object. */
module RateLimit {
  import opened Prelude
  import opened RateLimitModel
  import opened RateLimitProofs

  ghost predicate Spared(c: Config, e: Event, gap: real) {
    e.Collected? ==> e.older >= FillTime(c) + gap
  }

  /** What every call keeps, for every key and dimension: what it grants is paid out of the
      budget and the refill, and the limiter stays in order. */
  ghost predicate Metered(s: Limiter, e: Event, s': Limiter) {
    forall t, gap | Sound(s, t, gap) && InOrder(e, t, gap) && Spared(s.config, e, gap) ::
      Sound(s', Clock(e, t), gap) && forall k, d :: Paid(s, e, s', t, k, d)
  }

  predicate Paid(s: Limiter, e: Event, s': Limiter, t: real, key: string, d: Dimension) {
    Budget(s', key, d, Clock(e, t)) + Taken(s, e, key, d)
    <= Budget(s, key, d, t) + Times(Clock(e, t) - t, Rate(s.config, d))
  }

  lemma ExecMetered(s: Limiter, e: Event)
    ensures Metered(s, e, Exec(s, e))
  {
    hide Sound, InOrder, Exec, Budget, Taken, Rate, Times, Clock;
    forall t, gap | Sound(s, t, gap) && InOrder(e, t, gap) && Spared(s.config, e, gap)
      ensures Sound(Exec(s, e), Clock(e, t), gap) && forall k, d :: Paid(s, e, Exec(s, e), t, k, d)
    {
      StepKeeps(s, e, t, "", Requests, gap);
      forall k, d ensures Paid(s, e, Exec(s, e), t, k, d) {
        StepKeeps(s, e, t, k, d, gap);
      }
    }
  }

  lemma CheckMetered(s: Limiter, key: string, estimate: nat, r: Readings)
    ensures Metered(s, Checked(key, estimate, r), RateLimitModel.Check(s, key, estimate, r).0)
  {
    hide Metered, RateLimitModel.Check;
    ExecMetered(s, Checked(key, estimate, r));
  }

  lemma CollectMetered(s: Limiter, older: real, now: real)
    ensures Metered(s, Collected(older, now), Collect(s, older, now))
  {
    hide Metered, Collect;
    ExecMetered(s, Collected(older, now));
  }

  /** A check that is refused costs nobody anything. */
  ghost predicate FreeOfCharge(s: Limiter, r: Readings, s': Limiter) {
    forall gap, k, d | Sound(s, r.first, gap) && Ordered(r, gap) ::
      Budget(s', k, d, r.tokens) == Budget(s, k, d, r.tokens)
  }

  lemma RefusedIsFree(s: Limiter, key: string, estimate: nat, r: Readings)
    ensures var (s', v) := RateLimitModel.Check(s, key, estimate, r);
      v.Admitted? || FreeOfCharge(s, r, s')
  {
    hide Sound, RateLimitModel.Check, Budget, Taken, Rate, Times;
    var (s', v) := RateLimitModel.Check(s, key, estimate, r);
    if !v.Admitted? {
      forall gap, k, d | Sound(s, r.first, gap) && Ordered(r, gap)
        ensures Budget(s', k, d, r.tokens) == Budget(s, k, d, r.tokens)
      {
        CheckBudget(s, key, estimate, r, k, d, r.first, gap);
      }
    }
  }

  lemma DropOne<V>(m: map<string, V>, all: set<string>, rest: set<string>, k: string)
    requires k in rest && rest <= all
    ensures m - (all - rest) - {k} == m - (all - (rest - {k}))
  {
  }

  class RateLimiter {
    const config: Config
    var requests: map<string, Bucket>
    var tokens: map<string, Bucket>
    var concurrent: map<string, int>
    var lastSeen: map<string, real>

    function State(): Limiter
      reads this
    {
      Limiter(config, requests, tokens, concurrent, lastSeen)
    }

    /** A key has both buckets and has been seen, or none of it. */
    predicate Valid()
      reads this
    {
      requests.Keys == tokens.Keys == lastSeen.Keys
    }

    constructor (config: Config)
      ensures Valid() && State() == Fresh(config)
    {
      this.config := config;
      requests, tokens, concurrent, lastSeen := map[], map[], map[], map[];
    }

    method Buckets(key: string, r: Readings)
      requires Valid()
      modifies this`requests, this`tokens, this`lastSeen
      ensures Valid() && State() == Sighted(old(State()), key, r) && key in tokens
    {
      if key !in requests {
        requests := requests[key := NewBucket(config.requestsPerMinute, config.burst, r.first)];
        tokens := tokens[key := NewBucket(config.tokensPerMinute, config.burst, r.second)];
      }
      lastSeen := lastSeen[key := r.seen];
    }

    /** A refilled bucket, less the amount if it holds that much. */
    static method TryConsume(bucket: Bucket, amount: real, now: real) returns (b: Bucket, ok: bool)
      ensures (b, ok) == Consume(bucket, amount, now)
    {
      b := Refill(bucket, now);
      ok := b.tokens >= amount;
      if ok {
        b := b.(tokens := b.tokens - amount);
      }
    }

    /** Admitted and charged, or refused. */
    method Check(key: string, estimate: nat, r: Readings) returns (verdict: Verdict)
      requires Valid()
      modifies this
      ensures Valid() && (State(), verdict) == RateLimitModel.Check(old(State()), key, estimate, r)
      ensures Metered(old(State()), Checked(key, estimate, r), State())
      ensures verdict.Admitted? || FreeOfCharge(old(State()), r, State())
    {
      hide Sighted, Metered, FreeOfCharge, RateLimitModel.Charge;
      CheckMetered(State(), key, estimate, r);
      RefusedIsFree(State(), key, estimate, r);
      Buckets(key, r);
      if (if key in concurrent then concurrent[key] else 0) >= config.concurrentPerKey {
        return TooManyConcurrent;
      }
      verdict := Charge(key, estimate, r);
    }

    /** Consumes the request and the tokens, and gives the request back when the tokens are refused. */
    method Charge(key: string, estimate: nat, r: Readings) returns (verdict: Verdict)
      requires Valid() && key in requests
      modifies this`requests, this`tokens
      ensures Valid() && (State(), verdict) == RateLimitModel.Charge(old(State()), key, estimate, r)
    {
      hide Consume, RetryAfter;
      var bucket, ok := TryConsume(requests[key], 1.0, r.request);
      ghost var sighted := requests;
      requests := requests[key := bucket];
      if !ok {
        return TooManyRequests(RetryAfter(bucket, 1.0));
      }
      if estimate != 0 {
        var tokenBucket, enough := TryConsume(tokens[key], estimate as real, r.tokens);
        tokens := tokens[key := tokenBucket];
        if !enough {
          requests := requests[key := bucket.(tokens := bucket.tokens + 1.0)];
          Overwrite(sighted[key := bucket], sighted, key, bucket, bucket.(tokens := bucket.tokens + 1.0));
          return TooManyTokens(RetryAfter(tokenBucket, estimate as real));
        }
      }
      verdict := Admitted;
    }

    method Acquire(key: string)
      requires Valid()
      modifies this`concurrent
      ensures Valid() && State() == RateLimitModel.Acquire(old(State()), key)
      ensures Metered(old(State()), Acquired(key), State())
    {
      hide Metered;
      ExecMetered(State(), Acquired(key));
      concurrent := concurrent[key := (if key in concurrent then concurrent[key] else 0) + 1];
    }

    method Release(key: string)
      requires Valid()
      modifies this`concurrent
      ensures Valid() && State() == RateLimitModel.Release(old(State()), key)
      ensures Metered(old(State()), Released(key), State())
    {
      hide Metered;
      ExecMetered(State(), Released(key));
      var remaining := (if key in concurrent then concurrent[key] else 0) - 1;
      if remaining > 0 {
        concurrent := concurrent[key := remaining];
      } else {
        concurrent := concurrent - {key};
      }
    }

    /** Drop every key idle for too long, one at a time. */
    method Gc(older: real, now: real) returns (dropped: nat)
      requires Valid()
      modifies this`requests, this`tokens, this`lastSeen
      ensures Valid() && State() == Collect(old(State()), older, now)
      ensures dropped == |Stale(old(State()), older, now)|
      ensures Metered(old(State()), Collected(older, now), State())
    {
      hide Metered;
      CollectMetered(State(), older, now);
      var stale := Stale(State(), older, now);
      var rest := stale;
      while rest != {}
        invariant rest <= stale && Valid()
        invariant requests == old(requests) - (stale - rest) && tokens == old(tokens) - (stale - rest)
        invariant lastSeen == old(lastSeen) - (stale - rest)
        decreases rest
      {
        var k :| k in rest;
        DropOne(old(requests), stale, rest, k);
        DropOne(old(tokens), stale, rest, k);
        DropOne(old(lastSeen), stale, rest, k);
        requests, tokens, lastSeen := requests - {k}, tokens - {k}, lastSeen - {k};
        rest := rest - {k};
      }
      assert stale - {} == stale;
      dropped := |stale|;
    }
  }
}
