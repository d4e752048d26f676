/** The rate bound of every key over every window of every run, collections included. */
module RateLimitProofs {
  import opened Prelude
  import opened RateLimitModel

  // ----- levels -----

  function Since(last: real, t: real): real {
    if t > last then t - last else 0.0
  }

  /** What the bucket holds at time t, whether or not it has been refilled by then. */
  function Level(b: Bucket, t: real): real {
    Least(b.capacity, b.tokens + Times(Since(b.last, t), b.rate))
  }

  ghost predicate Healthy(b: Bucket, t: real) {
    0.0 <= b.tokens <= b.capacity && b.rate >= 0.0 && b.last <= t
  }

  lemma Nonnegative(a: real, b: real)
    requires a >= 0.0 && b >= 0.0
    ensures Times(a, b) >= 0.0
  {
  }

  lemma Adds(a: real, b: real, c: real)
    ensures Times(a + b, c) == Times(a, c) + Times(b, c)
  {
  }

  lemma LevelBounds(b: Bucket, t: real)
    requires Healthy(b, t)
    ensures b.tokens <= Level(b, t) <= b.capacity
  {
    hide Times;
    Nonnegative(Since(b.last, t), b.rate);
  }

  /** Over time a level grows, by at most the rate. */
  lemma LevelGrows(b: Bucket, t: real, t': real)
    requires Healthy(b, t) && t <= t'
    ensures Healthy(b, t')
    ensures Level(b, t) <= Level(b, t') <= Level(b, t) + Times(t' - t, b.rate)
  {
    hide Times;
    Adds(t - b.last, t' - t, b.rate);
    Nonnegative(t' - t, b.rate);
    ZeroTimes(b.rate);
    assert Since(b.last, t) == t - b.last && Since(b.last, t') == (t - b.last) + (t' - t);
  }

  lemma ZeroTimes(a: real)
    ensures Times(0.0, a) == 0.0
  {
  }

  /** Refilling does not change the level, then or later. */
  lemma RefillKeepsLevel(b: Bucket, now: real, t: real)
    requires Healthy(b, now) && now <= t
    ensures Healthy(Refill(b, now), now) && Level(Refill(b, now), t) == Level(b, t)
    ensures Refill(b, now).tokens == Level(b, now)
  {
    hide Times;
    ZeroTimes(b.rate);
    Nonnegative(Since(b.last, now), b.rate);
    if now > b.last {
      Adds(now - b.last, t - now, b.rate);
      Nonnegative(t - now, b.rate);
      assert (now - b.last) + (t - now) == t - b.last;
    }
  }

  /** A consumption succeeds exactly when the level allows it, and takes just that much. */
  lemma ConsumeIs(b: Bucket, amount: real, now: real)
    requires Healthy(b, now) && amount >= 0.0
    ensures var (c, ok) := Consume(b, amount, now);
      && Healthy(c, now) && c.capacity == b.capacity && c.rate == b.rate
      && (ok <==> Level(b, now) >= amount)
      && Level(c, now) == Level(b, now) - (if ok then amount else 0.0)
      && c.last == (if now > b.last then now else b.last)
  {
    hide Times;
    RefillKeepsLevel(b, now, now);
    ZeroTimes(b.rate);
    LevelBounds(b, now);
  }

  /** The announced wait suffices, and nothing shorter does; with none announced no time does. */
  ghost predicate WaitIsRight(b: Bucket, amount: real) {
    forall t: real | t >= b.last ::
      Level(b, t) >= amount <==> RetryAfter(b, amount).Some? && t - b.last >= RetryAfter(b, amount).value
  }

  lemma WaitFits(b: Bucket, amount: real, t: real)
    requires Healthy(b, b.last) && amount <= b.capacity && t >= b.last
    ensures Level(b, t) >= amount <==> RetryAfter(b, amount).Some? && t - b.last >= RetryAfter(b, amount).value
  {
    var wait := t - b.last;
    if amount > b.tokens && b.rate > 0.0 {
      var need := (amount - b.tokens) / b.rate;
      assert Times(need, b.rate) == amount - b.tokens;
      Adds(wait - need, need, b.rate);
      if wait >= need {
        Nonnegative(wait - need, b.rate);
      } else {
        assert (need - wait) * b.rate > 0.0;
      }
    } else {
      Nonnegative(wait, b.rate);
    }
  }

  lemma NeverEnough(b: Bucket, amount: real, t: real)
    requires Healthy(b, b.last) && amount > b.capacity
    ensures Level(b, t) < amount
    ensures RetryAfter(b, amount).None? <==> b.rate == 0.0
    ensures RetryAfter(b, amount).Some? ==> RetryAfter(b, amount).value >= 0.0
  {
    if b.rate > 0.0 {
      var need := (amount - b.tokens) / b.rate;
      assert need < 0.0 ==> need * b.rate < 0.0;
    }
  }

  /** The announced wait is right exactly when the amount fits in the bucket, or no wait is
      announced because the bucket never refills. */
  lemma RetryAfterIsExact(b: Bucket, amount: real)
    requires Healthy(b, b.last)
    ensures WaitIsRight(b, amount) <==> amount <= b.capacity || b.rate == 0.0
  {
    hide Level, RetryAfter;
    if amount <= b.capacity {
      forall t: real | t >= b.last
        ensures Level(b, t) >= amount <==> RetryAfter(b, amount).Some? && t - b.last >= RetryAfter(b, amount).value
      {
        WaitFits(b, amount, t);
      }
    } else {
      forall t: real | t >= b.last ensures Level(b, t) < amount {
        NeverEnough(b, amount, t);
      }
      NeverEnough(b, amount, b.last);
      if RetryAfter(b, amount).Some? {
        var t := b.last + RetryAfter(b, amount).value;
        assert Level(b, t) < amount;
      }
    }
  }

  // ----- the invariant -----

  function Capacity(c: Config, d: Dimension): real {
    Times((if d.Requests? then c.requestsPerMinute else c.tokensPerMinute) as real, c.burst)
  }

  function Rate(c: Config, d: Dimension): real {
    (if d.Requests? then c.requestsPerMinute else c.tokensPerMinute) as real / 60.0
  }

  function Buckets(s: Limiter, d: Dimension): map<string, Bucket> {
    if d.Requests? then s.requests else s.tokens
  }

  /** A bucket of the dimension, last refilled at most `gap` after its key was sighted. */
  ghost predicate BucketOk(s: Limiter, key: string, d: Dimension, t: real, gap: real) {
    key in s.lastSeen && key in Buckets(s, d) ==>
      var b := Buckets(s, d)[key];
      && Healthy(b, t) && b.capacity == Capacity(s.config, d) && b.rate == Rate(s.config, d)
      && b.last <= s.lastSeen[key] + gap
  }

  ghost predicate Sound(s: Limiter, t: real, gap: real) {
    && s.config.burst >= 0.0 && gap >= 0.0
    && s.requests.Keys == s.tokens.Keys == s.lastSeen.Keys
    && (forall k :: k in s.lastSeen ==> s.lastSeen[k] <= t)
    && (forall k, d :: BucketOk(s, k, d, t, gap))
  }

  /** What the key could spend at time t: a key without a bucket would get a full one. */
  function Budget(s: Limiter, key: string, d: Dimension, t: real): real {
    if key in Buckets(s, d) then Level(Buckets(s, d)[key], t) else Capacity(s.config, d)
  }

  lemma CapacityNonnegative(c: Config, d: Dimension)
    requires c.burst >= 0.0
    ensures Capacity(c, d) >= 0.0 && Rate(c, d) >= 0.0
    ensures Capacity(c, d) == Times(Times(60.0, c.burst), Rate(c, d))
  {
  }

  lemma BudgetBounds(s: Limiter, key: string, d: Dimension, t: real, gap: real)
    requires Sound(s, t, gap)
    ensures 0.0 <= Budget(s, key, d, t) <= Capacity(s.config, d)
  {
    hide Capacity, Times;
    CapacityNonnegative(s.config, d);
    assert BucketOk(s, key, d, t, gap);
    if key in Buckets(s, d) {
      assert key in s.lastSeen;
      LevelBounds(Buckets(s, d)[key], t);
    }
  }

  lemma SoundLater(s: Limiter, t: real, t': real, gap: real)
    requires Sound(s, t, gap) && t <= t'
    ensures Sound(s, t', gap)
  {
    hide Capacity, Rate, Times;
    forall k, d ensures BucketOk(s, k, d, t', gap) {
      assert BucketOk(s, k, d, t, gap);
    }
  }

  lemma BudgetGrows(s: Limiter, key: string, d: Dimension, t: real, t': real, gap: real)
    requires Sound(s, t, gap) && t <= t'
    ensures Budget(s, key, d, t) <= Budget(s, key, d, t') <= Budget(s, key, d, t) + Times(t' - t, Rate(s.config, d))
  {
    hide Capacity, Times, Rate;
    CapacityNonnegative(s.config, d);
    Nonnegative(t' - t, Rate(s.config, d));
    assert BucketOk(s, key, d, t, gap);
    if key in Buckets(s, d) {
      assert key in s.lastSeen;
      LevelGrows(Buckets(s, d)[key], t, t');
    }
  }

  // ----- one operation -----

  /** A bucket consumed from between t and later on: what was taken and what is left come out
      of the earlier level and the refill. */
  lemma ConsumeCost(b: Bucket, amount: real, t: real, now: real, later: real)
    requires Healthy(b, t) && amount >= 0.0 && t <= now <= later
    ensures var (c, ok) := Consume(b, amount, now);
      && Healthy(c, now)
      && Level(c, later) + (if ok then amount else 0.0) <= Level(b, t) + Times(later - t, b.rate)
      && (!ok ==> Level(c, later) == Level(b, later))
  {
    hide Times, Level;
    LevelGrows(b, t, now);
    ConsumeIs(b, amount, now);
    var (c, ok) := Consume(b, amount, now);
    LevelGrows(c, now, later);
    Adds(now - t, later - now, b.rate);
    assert (now - t) + (later - now) == later - t;
    RefillKeepsLevel(b, now, later);
  }

  /** Giving back what was consumed leaves the refilled bucket. */
  lemma RefundIs(b: Bucket, amount: real, now: real, later: real)
    requires Healthy(b, now) && amount >= 0.0 && now <= later
    ensures var (c, ok) := Consume(b, amount, now);
      ok ==> c.(tokens := c.tokens + amount) == Refill(b, now)
    ensures Healthy(Refill(b, now), now) && Level(Refill(b, now), later) == Level(b, later)
  {
    hide Times, Level;
    RefillKeepsLevel(b, now, later);
  }

  function With(s: Limiter, key: string, d: Dimension, b: Bucket): Limiter {
    if d.Requests? then s.(requests := s.requests[key := b]) else s.(tokens := s.tokens[key := b])
  }

  lemma WithKeeps(s: Limiter, key: string, d: Dimension, b: Bucket, t: real, gap: real)
    requires Sound(s, t, gap) && key in s.lastSeen && Healthy(b, t)
    requires b.capacity == Capacity(s.config, d) && b.rate == Rate(s.config, d) && b.last <= s.lastSeen[key] + gap
    ensures Sound(With(s, key, d, b), t, gap)
  {
    hide Capacity, Rate, Healthy;
    var s' := With(s, key, d, b);
    forall k, e ensures BucketOk(s', k, e, t, gap) {
      assert BucketOk(s, k, e, t, gap);
    }
  }

  /** Sighting a key makes its buckets, full, and changes nobody's budget. */
  lemma SightedKeeps(s: Limiter, key: string, r: Readings, gap: real)
    requires Sound(s, r.first, gap) && r.first <= r.second <= r.seen
    ensures var s1 := Sighted(s, key, r);
      && Sound(s1, r.seen, gap) && key in s1.lastSeen && s1.lastSeen[key] == r.seen
      && s1.config == s.config && s1.concurrent == s.concurrent
      && (key in s.requests ==> s1.requests == s.requests && s1.tokens == s.tokens)
  {
    hide Times;
    SoundLater(s, r.first, r.seen, gap);
    var s1 := Sighted(s, key, r);
    CapacityNonnegative(s.config, Requests);
    CapacityNonnegative(s.config, Tokens);
    forall k, d ensures BucketOk(s1, k, d, r.seen, gap) {
      assert BucketOk(s, k, d, r.seen, gap);
      assert BucketOk(s, k, d, r.first, gap);
    }
  }

  lemma SightedBudget(s: Limiter, key: string, r: Readings, k: string, d: Dimension, t: real)
    requires s.config.burst >= 0.0 && s.requests.Keys == s.tokens.Keys
    ensures Budget(Sighted(s, key, r), k, d, t) == Budget(s, k, d, t)
  {
    hide Times;
    if k == key && key !in s.requests {
      var x := if d.Requests? then r.first else r.second;
      var perMinute := if d.Requests? then s.config.requestsPerMinute else s.config.tokensPerMinute;
      var b := NewBucket(perMinute, s.config.burst, x);
      assert b.rate >= 0.0;
      Nonnegative(Since(x, t), b.rate);
    }
  }

  /** The bucket of a sighted key. */
  lemma SightedBucket(s1: Limiter, key: string, d: Dimension, t: real, gap: real)
    requires Sound(s1, t, gap) && key in s1.lastSeen
    ensures key in Buckets(s1, d)
    ensures var b := Buckets(s1, d)[key];
      && Healthy(b, t) && b.capacity == Capacity(s1.config, d) && b.rate == Rate(s1.config, d)
      && b.last <= s1.lastSeen[key] + gap
  {
    hide Capacity, Rate, Healthy;
    assert BucketOk(s1, key, d, t, gap);
  }

  // ----- a check, stage by stage -----

  /** The request bucket after a check. */
  function RequestAfter(s1: Limiter, key: string, estimate: nat, r: Readings): Bucket
    requires key in s1.requests
  {
    var (req, ok) := Consume(s1.requests[key], 1.0, r.request);
    if Running(s1, key) >= s1.config.concurrentPerKey then s1.requests[key]
    else if ok && estimate != 0 && key in s1.tokens && !Consume(s1.tokens[key], estimate as real, r.tokens).1 then
      req.(tokens := req.tokens + 1.0)
    else req
  }

  /** The token bucket after a check. */
  function TokensAfter(s1: Limiter, key: string, estimate: nat, r: Readings): Bucket
    requires key in s1.requests && key in s1.tokens
  {
    if Running(s1, key) >= s1.config.concurrentPerKey || !Consume(s1.requests[key], 1.0, r.request).1 || estimate == 0
    then s1.tokens[key]
    else Consume(s1.tokens[key], estimate as real, r.tokens).0
  }

  lemma CheckIs(s: Limiter, key: string, estimate: nat, r: Readings)
    requires key in Sighted(s, key, r).tokens
    ensures var s1 := Sighted(s, key, r);
      Check(s, key, estimate, r).0
      == With(With(s1, key, Tokens, TokensAfter(s1, key, estimate, r)), key, Requests,
              RequestAfter(s1, key, estimate, r))
  {
    hide Consume, Running;
    var s1 := Sighted(s, key, r);
    assert s1.tokens[key := s1.tokens[key]] == s1.tokens;
    assert s1.requests[key := s1.requests[key]] == s1.requests;
  }

  ghost predicate Ordered(r: Readings, gap: real) {
    r.first <= r.second <= r.seen <= r.request <= r.tokens <= r.first + gap
  }

  lemma CheckSound(s: Limiter, key: string, estimate: nat, r: Readings, gap: real)
    requires Sound(s, r.first, gap) && Ordered(r, gap)
    ensures Sound(Check(s, key, estimate, r).0, r.tokens, gap)
    ensures Check(s, key, estimate, r).0.config == s.config
  {
    hide Consume, Healthy, Sighted, Capacity, Rate, BucketOk, Check;
    var s1 := Sighted(s, key, r);
    SightedKeeps(s, key, r, gap);
    SoundLater(s1, r.seen, r.tokens, gap);
    SightedBucket(s1, key, Requests, r.seen, gap);
    SightedBucket(s1, key, Tokens, r.seen, gap);
    var req, tok := RequestAfter(s1, key, estimate, r), TokensAfter(s1, key, estimate, r);
    AfterHealthy(s1, key, estimate, r, gap);
    WithKeeps(s1, key, Tokens, tok, r.tokens, gap);
    WithKeeps(With(s1, key, Tokens, tok), key, Requests, req, r.tokens, gap);
    CheckIs(s, key, estimate, r);
  }

  lemma AfterHealthy(s1: Limiter, key: string, estimate: nat, r: Readings, gap: real)
    requires key in s1.requests && key in s1.tokens && Ordered(r, gap)
    requires Healthy(s1.requests[key], r.seen) && Healthy(s1.tokens[key], r.seen)
    requires s1.requests[key].last <= r.seen + gap && s1.tokens[key].last <= r.seen + gap
    ensures var req := RequestAfter(s1, key, estimate, r);
      Healthy(req, r.tokens) && req.capacity == s1.requests[key].capacity && req.rate == s1.requests[key].rate
      && req.last <= r.seen + gap
    ensures var tok := TokensAfter(s1, key, estimate, r);
      Healthy(tok, r.tokens) && tok.capacity == s1.tokens[key].capacity && tok.rate == s1.tokens[key].rate
      && tok.last <= r.seen + gap
  {
    hide Consume, Level;
    ConsumeIs(s1.requests[key], 1.0, r.request);
    ConsumeIs(s1.tokens[key], estimate as real, r.tokens);
    RefundIs(s1.requests[key], 1.0, r.request, r.request);
    RefillLast(s1.requests[key], r.request);
  }

  lemma RefillLast(b: Bucket, now: real)
    ensures Refill(b, now).last == (if now > b.last then now else b.last)
    ensures Refill(b, now).capacity == b.capacity && Refill(b, now).rate == b.rate
  {
  }

  lemma CheckBudget(s: Limiter, key: string, estimate: nat, r: Readings, k: string, d: Dimension, t: real, gap: real)
    requires Sound(s, t, gap) && t <= r.first && Ordered(r, gap)
    ensures var (s', v) := Check(s, key, estimate, r);
      && Budget(s', k, d, r.tokens) + Taken(s, Checked(key, estimate, r), k, d)
         <= Budget(s, k, d, t) + Times(r.tokens - t, Rate(s.config, d))
      && (!v.Admitted? ==> Budget(s', k, d, r.tokens) == Budget(s, k, d, r.tokens))
  {
    hide Sighted, Capacity, Rate, BucketOk, Level, Times, Consume;
    SoundLater(s, t, r.first, gap);
    var s1 := Sighted(s, key, r);
    SightedKeeps(s, key, r, gap);
    SightedBucket(s1, key, Requests, r.seen, gap);
    SightedBucket(s1, key, Tokens, r.seen, gap);
    CheckIs(s, key, estimate, r);
    SightedBudget(s, key, r, k, d, t);
    SightedBudget(s, key, r, k, d, r.tokens);
    if k != key {
      BudgetGrows(s, k, d, t, r.tokens, gap);
    } else {
      BudgetGrows(s, k, d, t, r.seen, gap);
      SightedBudget(s, key, r, k, d, r.seen);
      Adds(r.seen - t, r.tokens - r.seen, Rate(s.config, d));
      assert (r.seen - t) + (r.tokens - r.seen) == r.tokens - t;
      var b := Buckets(s1, d)[key];
      LevelGrows(b, r.seen, r.tokens);
      LevelGrows(b, r.seen, r.request);
      ConsumeCost(s1.requests[key], 1.0, r.seen, r.request, r.tokens);
      RefundIs(s1.requests[key], 1.0, r.request, r.tokens);
      ConsumeCost(s1.tokens[key], estimate as real, r.seen, r.tokens, r.tokens);
    }
  }

  /** A refused check leaves both buckets at their refilled level, now and later, and never over
      capacity: a refund included. */
  lemma RefusedTakesNothing(s: Limiter, key: string, estimate: nat, r: Readings, d: Dimension, gap: real)
    requires Sound(s, r.first, gap) && Ordered(r, gap) && !Check(s, key, estimate, r).1.Admitted?
    ensures var s' := Check(s, key, estimate, r).0;
      && key in Buckets(s', d) && 0.0 <= Buckets(s', d)[key].tokens <= Capacity(s.config, d)
      && Level(Buckets(s', d)[key], r.tokens) == Budget(s, key, d, r.tokens)
  {
    hide Check, Level, Capacity, Rate, Times;
    CheckSound(s, key, estimate, r, gap);
    CheckBudget(s, key, estimate, r, key, d, r.first, gap);
    var s' := Check(s, key, estimate, r).0;
    SeesKey(s, key, estimate, r);
    SightedBucket(s', key, d, r.tokens, gap);
  }

  /** An estimate above the capacity of the token bucket is never granted, in no state and however
      long the caller waits. */
  lemma NeverAdmitted(s: Limiter, key: string, estimate: nat, r: Readings, gap: real)
    requires Sound(s, r.first, gap) && Ordered(r, gap) && estimate as real > Capacity(s.config, Tokens)
    ensures !Check(s, key, estimate, r).1.Admitted?
  {
    hide Capacity, Rate, Times, Consume, Level, Sighted, Sound;
    var s1 := Sighted(s, key, r);
    CapacityOf(s, gap, r.first);
    SightedKeeps(s, key, r, gap);
    SightedBucket(s1, key, Tokens, r.seen, gap);
    var b := s1.tokens[key];
    LevelGrows(b, r.seen, r.tokens);
    LevelBounds(b, r.tokens);
    ConsumeIs(b, estimate as real, r.tokens);
  }

  lemma CapacityOf(s: Limiter, gap: real, t: real)
    requires Sound(s, t, gap)
    ensures Capacity(s.config, Tokens) >= 0.0
  {
    CapacityNonnegative(s.config, Tokens);
  }

  /** With 250000 tokens a minute and a burst of one and a half, a first request of 400000 tokens is
      told to come back in six seconds. */
  lemma OversizedShows(r: Readings)
    requires Ordered(r, 0.0)
    ensures var c := Config(600, 250000, 16, 1.5);
      && Check(Fresh(c), KEY, 400000, r).1 == TooManyTokens(Some(6.0))
      && forall s: Limiter, later: Readings, gap: real
           | s.config == c && Sound(s, later.first, gap) && Ordered(later, gap) ::
           !Check(s, KEY, 400000, later).1.Admitted?
  {
    hide Check, Sound;
    var c := Config(600, 250000, 16, 1.5);
    OversizedFirst(r);
    forall s: Limiter, later: Readings, gap: real
      | s.config == c && Sound(s, later.first, gap) && Ordered(later, gap)
      ensures !Check(s, KEY, 400000, later).1.Admitted?
    {
      NeverAdmitted(s, KEY, 400000, later, gap);
    }
  }

  lemma OversizedFirst(r: Readings)
    requires Ordered(r, 0.0)
    ensures Check(Fresh(Config(600, 250000, 16, 1.5)), KEY, 400000, r).1 == TooManyTokens(Some(6.0))
  {
  }

  const KEY := "k"

  lemma SeesKey(s: Limiter, key: string, estimate: nat, r: Readings)
    ensures key in Check(s, key, estimate, r).0.lastSeen
  {
  }

  // ----- collection -----

  /** Sixty times the burst multiplier, the time an empty bucket takes to fill. */
  function FillTime(c: Config): real {
    Times(60.0, c.burst)
  }

  /** A key not seen for the fill time and the gap has full buckets. */
  lemma IdleIsFull(s: Limiter, key: string, d: Dimension, now: real, gap: real)
    requires Sound(s, now, gap) && key in s.lastSeen && s.lastSeen[key] + gap + FillTime(s.config) <= now
    ensures Budget(s, key, d, now) == Capacity(s.config, d)
  {
    hide Capacity, Rate, Times;
    SightedBucket(s, key, d, now, gap);
    CapacityNonnegative(s.config, d);
    var b := Buckets(s, d)[key];
    Adds(now - b.last - FillTime(s.config), FillTime(s.config), Rate(s.config, d));
    Nonnegative(now - b.last - FillTime(s.config), Rate(s.config, d));
    assert (now - b.last - FillTime(s.config)) + FillTime(s.config) == now - b.last;
    if now <= b.last {
      ZeroTimes(Rate(s.config, d));
    }
  }

  lemma CollectSound(s: Limiter, older: real, now: real, gap: real)
    requires Sound(s, now, gap)
    ensures Sound(Collect(s, older, now), now, gap)
  {
    hide Capacity, Rate, Healthy;
    forall k, d ensures BucketOk(Collect(s, older, now), k, d, now, gap) {
      assert BucketOk(s, k, d, now, gap);
    }
  }

  lemma CollectKeeps(s: Limiter, older: real, now: real, k: string, d: Dimension, gap: real)
    requires Sound(s, now, gap) && older >= FillTime(s.config) + gap
    ensures Sound(Collect(s, older, now), now, gap)
    ensures Budget(Collect(s, older, now), k, d, now) == Budget(s, k, d, now)
  {
    hide Capacity, Rate, Level, Times, FillTime;
    CollectSound(s, older, now, gap);
    if k in Stale(s, older, now) {
      IdleIsFull(s, k, d, now, gap);
    }
  }

  // ----- runs -----

  lemma StepKeeps(s: Limiter, e: Event, t: real, k: string, d: Dimension, gap: real)
    requires Sound(s, t, gap) && InOrder(e, t, gap)
    requires e.Collected? ==> e.older >= FillTime(s.config) + gap
    ensures var s' := Exec(s, e);
      && Sound(s', Clock(e, t), gap) && s'.config == s.config && t <= Clock(e, t)
      && Budget(s', k, d, Clock(e, t)) + Taken(s, e, k, d)
        <= Budget(s, k, d, t) + Times(Clock(e, t) - t, Rate(s.config, d))
  {
    hide Capacity, Rate, Times, FillTime, Check, Level, Healthy;
    SoundLater(s, t, Clock(e, t), gap);
    BudgetGrows(s, k, d, t, Clock(e, t), gap);
    match e {
      case Checked(key, estimate, r) =>
        SoundLater(s, t, r.first, gap);
        CheckSound(s, key, estimate, r, gap);
        CheckBudget(s, key, estimate, r, k, d, t, gap);
      case Collected(older, now) =>
        CollectKeeps(s, older, now, k, d, gap);
      case Acquired(key) =>
        SoundAnyway(s, Acquire(s, key), t, gap);
      case Released(key) =>
        SoundAnyway(s, Release(s, key), t, gap);
    }
  }

  lemma SoundAnyway(s: Limiter, s': Limiter, t: real, gap: real)
    requires Sound(s, t, gap) && s'.config == s.config
    requires s'.requests == s.requests && s'.tokens == s.tokens && s'.lastSeen == s.lastSeen
    ensures Sound(s', t, gap)
  {
    hide Capacity, Rate, Healthy;
    forall k, d ensures BucketOk(s', k, d, t, gap) {
      assert BucketOk(s, k, d, t, gap);
    }
  }

  lemma {:induction false} RunKeeps(s: Limiter, run: seq<Event>, t: real, k: string, d: Dimension, gap: real)
    requires Sound(s, t, gap) && Monotone(run, t, gap) && Spares(run, FillTime(s.config) + gap)
    ensures var s' := Play(s, run);
      && Sound(s', ClockAfter(run, t), gap) && s'.config == s.config
      && Budget(s', k, d, ClockAfter(run, t)) + TakenBy(s, run, k, d)
         <= Budget(s, k, d, t) + Times(ClockAfter(run, t) - t, Rate(s.config, d))
    decreases |run|
  {
    hide Sound, Exec, Taken, Budget, Clock, InOrder, Rate, Times, FillTime;
    if run == [] {
      ZeroTimes(Rate(s.config, d));
    } else {
      var e := run[0];
      assert run[0].Collected? ==> run[0].older >= FillTime(s.config) + gap;
      StepKeeps(s, e, t, k, d, gap);
      forall i | 0 <= i < |run[1..]| && run[1..][i].Collected? ensures run[1..][i].older >= FillTime(s.config) + gap {
        assert run[i + 1].Collected?;
      }
      RunKeeps(Exec(s, e), run[1..], Clock(e, t), k, d, gap);
      var end := ClockAfter(run, t);
      Adds(Clock(e, t) - t, end - Clock(e, t), Rate(s.config, d));
      assert (Clock(e, t) - t) + (end - Clock(e, t)) == end - t;
    }
  }

  lemma FreshIsSound(c: Config, t: real, gap: real)
    requires c.burst >= 0.0 && gap >= 0.0
    ensures Sound(Fresh(c), t, gap)
  {
  }

  /** In every window of every run, collections included, a key is granted at most the capacity
      and the refill of the window, when collections spare the keys seen within the fill time. */
  lemma RateBound(c: Config, before: seq<Event>, window: seq<Event>, start: real, t: real, k: string, d: Dimension,
      gap: real)
    requires c.burst >= 0.0 && gap >= 0.0
    requires Monotone(before, start, gap) && ClockAfter(before, start) <= t && Monotone(window, t, gap)
    requires Spares(before, FillTime(c) + gap) && Spares(window, FillTime(c) + gap)
    ensures TakenBy(Play(Fresh(c), before), window, k, d)
      <= Capacity(c, d) + Times(ClockAfter(window, t) - t, Rate(c, d))
  {
    hide Sound, Budget, Capacity, Rate, Times, FillTime, TakenBy, Monotone;
    FreshIsSound(c, start, gap);
    RunKeeps(Fresh(c), before, start, k, d, gap);
    var s := Play(Fresh(c), before);
    SoundLater(s, ClockAfter(before, start), t, gap);
    RunKeeps(s, window, t, k, d, gap);
    BudgetBounds(s, k, d, t, gap);
    BudgetBounds(Play(s, window), k, d, ClockAfter(window, t), gap);
  }
}
