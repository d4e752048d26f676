/** How long a key must be idle before collecting it goes unnoticed, when the clock may move by up
    to a gap within one check. */
module RateLimitGc {
  import opened Prelude
  import opened RateLimitModel
  import opened RateLimitProofs

  /** After any run whose checks each take at most `gap`, collecting keys idle for longer than
      `older` changes no budget. */
  ghost predicate GcInvisible(c: Config, older: real, gap: real) {
    forall run: seq<Event>, start: real, k: string, d: Dimension, now: real
      | Monotone(run, start, gap) && Spares(run, older) && ClockAfter(run, start) <= now ::
      Unnoticed(Play(Fresh(c), run), older, k, d, now)
  }

  predicate Unnoticed(s: Limiter, older: real, k: string, d: Dimension, now: real) {
    Budget(Collect(s, older, now), k, d, now) == Budget(s, k, d, now)
  }

  /** A check can be granted at all. */
  predicate Admits(c: Config) {
    c.concurrentPerKey >= 1 && Capacity(c, Requests) >= 1.0
  }

  /** The most that one check can take. */
  function Bite(c: Config, d: Dimension): int {
    if d.Requests? then 1 else Capacity(c, Tokens).Floor
  }

  /** The time that takes to come back. */
  function Regrowth(c: Config, d: Dimension): real {
    if Rate(c, d) == 0.0 then 0.0 else Bite(c, d) as real / Rate(c, d)
  }

  function Slack(c: Config): real {
    Most(Regrowth(c, Requests), Regrowth(c, Tokens))
  }

  /** The idle time that is enough. A key may be sighted up to `gap` before it empties its bucket;
      but a bucket also grows during that gap, and one check takes only so much of it. */
  function Threshold(c: Config, gap: real): real {
    Least(FillTime(c) + gap, Most(FillTime(c), gap) + Slack(c))
  }

  // ----- long enough -----

  /** The buckets of every key are full once it has been idle so long. */
  ghost predicate Filled(s: Limiter, idle: real) {
    forall k, d :: FilledAt(s, k, d, idle)
  }

  ghost predicate FilledAt(s: Limiter, k: string, d: Dimension, idle: real) {
    k in s.lastSeen && k in Buckets(s, d) ==> FullBy(Buckets(s, d)[k], s.lastSeen[k] + idle)
  }

  predicate FullBy(b: Bucket, t: real) {
    Level(b, t) >= b.capacity
  }

  /** So long an idle time is enough after a bite that takes `regrowth` to come back. */
  predicate LongEnough(fill: real, gap: real, regrowth: real, idle: real) {
    idle >= fill + gap || (idle >= fill + regrowth && idle >= gap + regrowth)
  }

  /** What is left after a bite at time u fills up within the idle time. */
  lemma BiteFills(b: Bucket, amount: real, seen: real, u: real, gap: real, fill: real, regrowth: real, idle: real)
    requires Healthy(b, seen) && seen <= u <= seen + gap && 0.0 <= amount <= Times(regrowth, b.rate)
    requires Times(fill, b.rate) == b.capacity && fill >= 0.0 && regrowth >= 0.0
    requires LongEnough(fill, gap, regrowth, idle) && Consume(b, amount, u).1
    ensures FullBy(Consume(b, amount, u).0, seen + idle)
  {
    hide Times;
    var c, later := Consume(b, amount, u).0, seen + idle;
    LevelGrows(b, seen, u);
    ConsumeIs(b, amount, u);
    RefillKeepsLevel(b, u, u);
    assert c.last == u && later >= u;
    assert c.tokens == Level(b, u) - amount;
    if idle >= fill + gap {
      TimesGrows(fill, later - u, b.rate);
    } else if Level(b, u) == b.capacity {
      TimesGrows(regrowth, later - u, b.rate);
    } else {
      TimesGrows(u - seen, u - b.last, b.rate);
      Adds(u - seen, later - u, b.rate);
      assert (u - seen) + (later - u) == idle;
      Adds(fill, regrowth, b.rate);
      TimesGrows(fill + regrowth, idle, b.rate);
    }
  }

  lemma TimesGrows(a: real, b: real, c: real)
    requires a <= b && c >= 0.0
    ensures Times(a, c) <= Times(b, c)
  {
  }

  /** Once full, always full until consumed from. */
  lemma FullLater(b: Bucket, t: real, t': real)
    requires b.rate >= 0.0 && FullBy(b, t) && t <= t'
    ensures FullBy(b, t')
  {
    hide Times;
    TimesGrows(Since(b.last, t), Since(b.last, t'), b.rate);
  }

  /** A refill, or a refund of what was consumed, changes no level. */
  lemma RefillFills(b: Bucket, u: real, t: real)
    requires Healthy(b, u) && u <= t && FullBy(b, t)
    ensures FullBy(Refill(b, u), t)
  {
    hide Times, Level;
    RefillKeepsLevel(b, u, t);
    RefillLast(b, u);
  }

  /** Every bite that a bucket of the dimension grants comes back within the slack. */
  lemma BiteIsSmall(c: Config, d: Dimension, amount: nat, level: real)
    requires c.burst >= 0.0 && amount as real <= level <= Capacity(c, d) && (d.Requests? ==> amount == 1)
    ensures amount as real <= Times(Regrowth(c, d), Rate(c, d)) && 0.0 <= Regrowth(c, d) <= Slack(c)
    ensures Regrowth(c, Requests) >= 0.0 && Regrowth(c, Tokens) >= 0.0
  {
    hide Times;
    RegrowthIs(c, Requests);
    RegrowthIs(c, Tokens);
    CapacityNonnegative(c, d);
    if Rate(c, d) == 0.0 {
      NoRate(c, d);
    }
    assert amount <= level.Floor;
  }

  lemma NoRate(c: Config, d: Dimension)
    requires c.burst >= 0.0 && Rate(c, d) == 0.0
    ensures Capacity(c, d) == 0.0 && Times(Regrowth(c, d), Rate(c, d)) == 0.0
  {
  }

  lemma RegrowthIs(c: Config, d: Dimension)
    requires c.burst >= 0.0
    ensures Regrowth(c, d) >= 0.0
    ensures Rate(c, d) > 0.0 ==> Times(Regrowth(c, d), Rate(c, d)) == Bite(c, d) as real
  {
    CapacityNonnegative(c, d);
    if Rate(c, d) > 0.0 {
      Quotient(Bite(c, d) as real, Rate(c, d));
    }
  }

  lemma Quotient(a: real, b: real)
    requires b > 0.0
    ensures Times(a / b, b) == a && (a >= 0.0 ==> a / b >= 0.0)
  {
    assert a / b < 0.0 ==> (a / b) * b < 0.0;
  }

  /** A time that is long enough in both dimensions. */
  predicate Ample(c: Config, gap: real, idle: real) {
    c.burst >= 0.0 && gap >= 0.0 && LongEnough(FillTime(c), gap, Slack(c), idle)
  }

  lemma ThresholdIsAmple(c: Config, gap: real, older: real)
    requires c.burst >= 0.0 && gap >= 0.0 && older >= Threshold(c, gap)
    ensures Ample(c, gap, older)
  {
    hide FillTime, Slack;
  }

  lemma AmpleFor(c: Config, gap: real, idle: real, d: Dimension)
    requires Ample(c, gap, idle)
    ensures LongEnough(FillTime(c), gap, Regrowth(c, d), idle) && idle >= gap && FillTime(c) >= 0.0
    ensures Capacity(c, d) == Times(FillTime(c), Rate(c, d)) && Regrowth(c, d) >= 0.0
  {
    hide Capacity, Rate, Regrowth, Times;
    RegrowthIs(c, Requests);
    RegrowthIs(c, Tokens);
    CapacityNonnegative(c, d);
    Nonnegative(60.0, c.burst);
  }

  /** One consumption of a sighted bucket, granted or not. */
  lemma ConsumeFills(c: Config, d: Dimension, b: Bucket, amount: nat, seen: real, u: real, gap: real, idle: real)
    requires Ample(c, gap, idle) && Healthy(b, seen) && seen <= u <= seen + gap && (d.Requests? ==> amount == 1)
    requires b.capacity == Capacity(c, d) && b.rate == Rate(c, d) && FullBy(b, seen + idle)
    ensures FullBy(Consume(b, amount as real, u).0, seen + idle) && FullBy(Refill(b, u), seen + idle)
    ensures !Consume(b, amount as real, u).1 ==> Consume(b, amount as real, u).0 == Refill(b, u)
  {
    hide Capacity, Rate, Regrowth, Times, FullBy, LongEnough, FillTime, Slack;
    AmpleFor(c, gap, idle, d);
    LevelGrows(b, seen, u);
    RefillFills(b, u, seen + idle);
    ConsumeIs(b, amount as real, u);
    if Consume(b, amount as real, u).1 {
      LevelBounds(b, u);
      BiteIsSmall(c, d, amount, Level(b, u));
      BiteFills(b, amount as real, seen, u, gap, FillTime(c), Regrowth(c, d), idle);
    }
  }

  /** Both buckets of a key, after a check. */
  lemma AfterFills(s1: Limiter, key: string, estimate: nat, r: Readings, gap: real, idle: real)
    requires key in s1.requests && key in s1.tokens && Ordered(r, gap) && Ample(s1.config, gap, idle)
    requires Healthy(s1.requests[key], r.seen) && Healthy(s1.tokens[key], r.seen)
    requires s1.requests[key].capacity == Capacity(s1.config, Requests)
    requires s1.requests[key].rate == Rate(s1.config, Requests)
    requires s1.tokens[key].capacity == Capacity(s1.config, Tokens)
    requires s1.tokens[key].rate == Rate(s1.config, Tokens)
    requires FullBy(s1.requests[key], r.seen + idle) && FullBy(s1.tokens[key], r.seen + idle)
    ensures FullBy(RequestAfter(s1, key, estimate, r), r.seen + idle)
    ensures FullBy(TokensAfter(s1, key, estimate, r), r.seen + idle)
  {
    hide Consume, Capacity, Rate, FullBy, Ample, Healthy, Refill;
    ConsumeFills(s1.config, Requests, s1.requests[key], 1, r.seen, r.request, gap, idle);
    ConsumeFills(s1.config, Tokens, s1.tokens[key], estimate, r.seen, r.tokens, gap, idle);
    Refunded(s1.requests[key], r.seen, r.request);
  }

  lemma Refunded(b: Bucket, seen: real, u: real)
    requires Healthy(b, seen) && seen <= u
    ensures var (c, ok) := Consume(b, 1.0, u); ok ==> c.(tokens := c.tokens + 1.0) == Refill(b, u)
  {
    hide Times;
    LevelGrows(b, seen, u);
    RefundIs(b, 1.0, u, u);
  }

  /** A sighted key's buckets are full by the new deadline. */
  lemma SightedFills(s: Limiter, key: string, r: Readings, gap: real, idle: real, d: Dimension)
    requires Sound(s, r.first, gap) && Filled(s, idle) && Ordered(r, gap)
    ensures var s1 := Sighted(s, key, r);
      key in Buckets(s1, d) && FullBy(Buckets(s1, d)[key], r.seen + idle)
  {
    hide Times, FullBy, Capacity, Rate, Healthy;
    if key in s.requests {
      assert FilledAt(s, key, d, idle) && BucketOk(s, key, d, r.first, gap);
      RateOf(s, key, d, r.first, gap);
      FullLater(Buckets(s, d)[key], s.lastSeen[key] + idle, r.seen + idle);
    } else {
      NewIsFull(s.config.requestsPerMinute, s.config.burst, r.first, r.seen + idle);
      NewIsFull(s.config.tokensPerMinute, s.config.burst, r.second, r.seen + idle);
    }
  }

  lemma RateOf(s: Limiter, key: string, d: Dimension, t: real, gap: real)
    requires BucketOk(s, key, d, t, gap) && key in s.lastSeen && key in Buckets(s, d)
    ensures Buckets(s, d)[key].rate >= 0.0
  {
  }

  lemma NewIsFull(perMinute: nat, burst: real, now: real, t: real)
    ensures FullBy(NewBucket(perMinute, burst, now), t)
  {
    var b := NewBucket(perMinute, burst, now);
    Nonnegative(Since(now, t), b.rate);
  }

  lemma CheckFills(s: Limiter, key: string, estimate: nat, r: Readings, gap: real, idle: real)
    requires Sound(s, r.first, gap) && Filled(s, idle) && Ordered(r, gap) && Ample(s.config, gap, idle)
    ensures Filled(RateLimitModel.Check(s, key, estimate, r).0, idle)
  {
    hide Consume, Sighted, Capacity, Rate, BucketOk, RateLimitModel.Check, FullBy, Ample, Healthy;
    var s1 := Sighted(s, key, r);
    SightedKeeps(s, key, r, gap);
    SightedBucket(s1, key, Requests, r.seen, gap);
    SightedBucket(s1, key, Tokens, r.seen, gap);
    SightedFills(s, key, r, gap, idle, Requests);
    SightedFills(s, key, r, gap, idle, Tokens);
    AfterFills(s1, key, estimate, r, gap, idle);
    CheckIs(s, key, estimate, r);
    forall k, d ensures FilledAt(RateLimitModel.Check(s, key, estimate, r).0, k, d, idle) {
      assert FilledAt(s, k, d, idle);
      SightedOthers(s, key, r, k);
    }
  }

  lemma SightedOthers(s: Limiter, key: string, r: Readings, k: string)
    ensures var s1 := Sighted(s, key, r);
      && s1.lastSeen == s.lastSeen[key := r.seen]
      && (k != key ==> (k in s1.requests <==> k in s.requests) && (k in s1.tokens <==> k in s.tokens))
      && (k != key && k in s.requests ==> s1.requests[k] == s.requests[k])
      && (k != key && k in s.tokens ==> s1.tokens[k] == s.tokens[k])
  {
  }

  lemma ExecFills(s: Limiter, e: Event, t: real, gap: real, idle: real)
    requires Sound(s, t, gap) && Filled(s, idle) && InOrder(e, t, gap) && Ample(s.config, gap, idle)
    ensures var s' := Exec(s, e); Sound(s', Clock(e, t), gap) && Filled(s', idle) && s'.config == s.config
  {
    hide Capacity, Rate, Times, RateLimitModel.Check, Healthy, FullBy, Ample;
    SoundLater(s, t, Clock(e, t), gap);
    match e {
      case Checked(key, estimate, r) =>
        SoundLater(s, t, r.first, gap);
        CheckSound(s, key, estimate, r, gap);
        CheckFills(s, key, estimate, r, gap, idle);
      case Collected(older, now) =>
        CollectSound(s, older, now, gap);
        forall k, d ensures FilledAt(Collect(s, older, now), k, d, idle) {
          assert FilledAt(s, k, d, idle);
        }
      case Acquired(key) =>
        SoundAnyway(s, Acquire(s, key), t, gap);
        SameFilled(s, Acquire(s, key), idle);
      case Released(key) =>
        SoundAnyway(s, Release(s, key), t, gap);
        SameFilled(s, Release(s, key), idle);
    }
  }

  lemma SameFilled(s: Limiter, s': Limiter, idle: real)
    requires Filled(s, idle) && s'.requests == s.requests && s'.tokens == s.tokens && s'.lastSeen == s.lastSeen
    ensures Filled(s', idle)
  {
    hide FullBy;
    forall k, d ensures FilledAt(s', k, d, idle) {
      assert FilledAt(s, k, d, idle);
    }
  }

  lemma {:induction false} RunFills(s: Limiter, run: seq<Event>, t: real, gap: real, idle: real)
    requires Sound(s, t, gap) && Filled(s, idle) && Monotone(run, t, gap) && Ample(s.config, gap, idle)
    ensures var s' := Play(s, run); Sound(s', ClockAfter(run, t), gap) && Filled(s', idle) && s'.config == s.config
    decreases |run|
  {
    hide Sound, Filled, Exec, InOrder, Ample, Clock;
    if run != [] {
      ExecFills(s, run[0], t, gap, idle);
      RunFills(Exec(s, run[0]), run[1..], Clock(run[0], t), gap, idle);
    }
  }

  /** A collection of keys idle for an ample time goes unnoticed. */
  lemma AmpleIsUnnoticed(s: Limiter, older: real, k: string, d: Dimension, now: real, gap: real)
    requires Sound(s, now, gap) && Filled(s, older)
    ensures Unnoticed(s, older, k, d, now)
  {
    hide Capacity, Rate, Times;
    assert FilledAt(s, k, d, older) && BucketOk(s, k, d, now, gap);
    if k in s.lastSeen && k in Buckets(s, d) && s.lastSeen[k] < now - older {
      RateOf(s, k, d, now, gap);
      FullLater(Buckets(s, d)[k], s.lastSeen[k] + older, now);
      LevelBounds(Buckets(s, d)[k], now);
    }
  }

  // ----- a limiter that grants nothing -----

  /** Every bucket is full. */
  ghost predicate Brimming(s: Limiter) {
    && s.config.burst >= 0.0 && (forall k :: k in s.concurrent ==> s.concurrent[k] >= 1)
    && forall k, d :: k in Buckets(s, d) ==> BrimFull(s.config, d, Buckets(s, d)[k])
  }

  predicate BrimFull(c: Config, d: Dimension, b: Bucket) {
    b.tokens == b.capacity == Capacity(c, d) && b.rate == Rate(c, d)
  }

  lemma BrimStays(c: Config, d: Dimension, b: Bucket, u: real)
    requires c.burst >= 0.0 && BrimFull(c, d, b)
    ensures BrimFull(c, d, Refill(b, u)) && Level(b, u) == Capacity(c, d)
  {
    hide Capacity, Times;
    CapacityNonnegative(c, d);
    Nonnegative(Since(b.last, u), b.rate);
  }

  lemma SightedBrims(s: Limiter, key: string, r: Readings)
    requires Brimming(s)
    ensures Brimming(Sighted(s, key, r))
  {
    hide Times;
    var s1 := Sighted(s, key, r);
    forall k, d | k in Buckets(s1, d) ensures BrimFull(s1.config, d, Buckets(s1, d)[k]) {
      if k in Buckets(s, d) && Buckets(s1, d)[k] == Buckets(s, d)[k] {
        assert BrimFull(s.config, d, Buckets(s, d)[k]);
      }
    }
  }

  lemma CheckBrims(s: Limiter, key: string, estimate: nat, r: Readings)
    requires Brimming(s) && !Admits(s.config)
    ensures Brimming(RateLimitModel.Check(s, key, estimate, r).0)
  {
    hide Sighted, Capacity, Rate, Refill;
    var s1 := Sighted(s, key, r);
    SightedBrims(s, key, r);
    assert s1.config == s.config by {
      SightedConfig(s, key, r);
    }
    if Running(s1, key) < s1.config.concurrentPerKey {
      var b := s1.requests[key];
      assert key in Buckets(s1, Requests) && BrimFull(s1.config, Requests, b);
      BrimStays(s1.config, Requests, b, r.request);
      var s2 := RateLimitModel.Check(s, key, estimate, r).0;
      assert s2 == s1.(requests := s1.requests[key := Refill(b, r.request)]);
      forall k, d | k in Buckets(s2, d) ensures BrimFull(s2.config, d, Buckets(s2, d)[k]) {
        assert k in Buckets(s1, d) && BrimFull(s1.config, d, Buckets(s1, d)[k]);
      }
    }
  }

  lemma SightedConfig(s: Limiter, key: string, r: Readings)
    ensures Sighted(s, key, r).config == s.config
  {
  }

  lemma ExecBrims(s: Limiter, e: Event)
    requires Brimming(s) && !Admits(s.config)
    ensures Brimming(Exec(s, e)) && Exec(s, e).config == s.config
  {
    hide RateLimitModel.Check, BrimFull, Admits;
    match e {
      case Checked(key, estimate, r) =>
        CheckBrims(s, key, estimate, r);
        CheckConfig(s, key, estimate, r);
      case Collected(older, now) =>
        forall k, d | k in Buckets(Collect(s, older, now), d)
          ensures BrimFull(s.config, d, Buckets(Collect(s, older, now), d)[k])
        {
          assert k in Buckets(s, d) && BrimFull(s.config, d, Buckets(s, d)[k]);
        }
      case Acquired(key) => SameBrims(s, Acquire(s, key));
      case Released(key) => SameBrims(s, Release(s, key));
    }
  }

  lemma CheckConfig(s: Limiter, key: string, estimate: nat, r: Readings)
    ensures RateLimitModel.Check(s, key, estimate, r).0.config == s.config
  {
    hide Consume;
  }

  lemma SameBrims(s: Limiter, s': Limiter)
    requires Brimming(s) && s'.config == s.config && s'.requests == s.requests && s'.tokens == s.tokens
    requires forall k :: k in s'.concurrent ==> s'.concurrent[k] >= 1
    ensures Brimming(s')
  {
    hide BrimFull;
    forall k, d | k in Buckets(s', d) ensures BrimFull(s'.config, d, Buckets(s', d)[k]) {
      assert k in Buckets(s, d) && BrimFull(s.config, d, Buckets(s, d)[k]);
    }
  }

  lemma {:induction false} RunBrims(s: Limiter, run: seq<Event>)
    requires Brimming(s) && !Admits(s.config)
    ensures Brimming(Play(s, run)) && Play(s, run).config == s.config
    decreases |run|
  {
    hide Brimming, Exec, Admits;
    if run != [] {
      ExecBrims(s, run[0]);
      RunBrims(Exec(s, run[0]), run[1..]);
    }
  }

  lemma BrimIsUnnoticed(s: Limiter, older: real, k: string, d: Dimension, now: real)
    requires Brimming(s)
    ensures Unnoticed(s, older, k, d, now)
  {
    hide Capacity, Rate, Level;
    if k in Buckets(s, d) {
      assert BrimFull(s.config, d, Buckets(s, d)[k]);
      BrimStays(s.config, d, Buckets(s, d)[k], now);
    }
  }

  // ----- not long enough -----

  /** A limiter that has seen one key: what its buckets hold, when they were last refilled, and
      when it was seen. */
  function OneKey(c: Config, requests: real, requestsLast: real, tokens: real, tokensLast: real, seen: real): Limiter {
    Limiter(c, map[KEY := Bucket(Capacity(c, Requests), Rate(c, Requests), requests, requestsLast)],
      map[KEY := Bucket(Capacity(c, Tokens), Rate(c, Tokens), tokens, tokensLast)], map[], map[KEY := seen])
  }

  /** A check that sights the key at one time and consumes at another. */
  function Asks(estimate: nat, seen: real, u: real): Event {
    Checked(KEY, estimate, Readings(seen, seen, seen, u, u))
  }

  lemma FirstAsk(c: Config, estimate: nat, u: real)
    requires Admits(c) && c.burst >= 0.0 && estimate as real <= Capacity(c, Tokens) && u >= 0.0
    ensures Exec(Fresh(c), Asks(estimate, 0.0, u)) == OneKey(c, Capacity(c, Requests) - 1.0, u,
      if estimate == 0 then Capacity(c, Tokens) else Capacity(c, Tokens) - estimate as real,
      if estimate == 0 then 0.0 else u, 0.0)
  {
    hide Times;
    CapacityNonnegative(c, Requests);
    CapacityNonnegative(c, Tokens);
    Nonnegative(u, Rate(c, Requests));
    Nonnegative(u, Rate(c, Tokens));
  }

  function Refilled(c: Config, d: Dimension, tokens: real, elapsed: real): real {
    Least(Capacity(c, d), tokens + Times(elapsed, Rate(c, d)))
  }

  /** A check that both buckets can grant. */
  lemma NextAsk(c: Config, rq: real, rl: real, tk: real, tl: real, seen: real, estimate: nat, at: real, u: real)
    requires Admits(c) && u >= rl && u >= tl && rq <= Capacity(c, Requests) && tk <= Capacity(c, Tokens)
    requires Refilled(c, Requests, rq, u - rl) >= 1.0
    requires Refilled(c, Tokens, tk, u - tl) >= estimate as real
    ensures Exec(OneKey(c, rq, rl, tk, tl, seen), Asks(estimate, at, u)) ==
      OneKey(c, Refilled(c, Requests, rq, u - rl) - 1.0, u,
        if estimate == 0 then tk else Refilled(c, Tokens, tk, u - tl) - estimate as real,
        if estimate == 0 then tl else u, at)
  {
    hide Times, Capacity, Rate, RateLimitModel.Refill;
    RefillIs(c, Requests, rq, rl, u);
    RefillIs(c, Tokens, tk, tl, u);
    var s := OneKey(c, rq, rl, tk, tl, seen);
    assert s.requests[KEY] == Bucket(Capacity(c, Requests), Rate(c, Requests), rq, rl);
    assert s.tokens[KEY] == Bucket(Capacity(c, Tokens), Rate(c, Tokens), tk, tl);
  }

  lemma RefillIs(c: Config, d: Dimension, tokens: real, last: real, u: real)
    requires u >= last && tokens <= Capacity(c, d)
    ensures Refill(Bucket(Capacity(c, d), Rate(c, d), tokens, last), u)
         == Bucket(Capacity(c, d), Rate(c, d), Refilled(c, d, tokens, u - last), u)
  {
    hide Times, Capacity, Rate;
    ZeroTimes(Rate(c, d));
  }

  /** A run of checks from time 0 to time `end` that leads to s. */
  ghost predicate Reaches(c: Config, run: seq<Event>, gap: real, end: real, s: Limiter) {
    && Monotone(run, 0.0, gap) && ClockAfter(run, 0.0) == end && Play(Fresh(c), run) == s
    && forall i :: 0 <= i < |run| ==> run[i].Checked?
  }

  lemma {:induction false} OneMore(s: Limiter, run: seq<Event>, e: Event, t: real, gap: real)
    requires Monotone(run, t, gap) && InOrder(e, ClockAfter(run, t), gap)
    ensures Monotone(run + [e], t, gap) && ClockAfter(run + [e], t) == Clock(e, ClockAfter(run, t))
    ensures Play(s, run + [e]) == Exec(Play(s, run), e)
    decreases |run|
  {
    hide Exec, InOrder, Clock;
    if run == [] {
      assert run + [e] == [e] && [e][1..] == [];
    } else {
      assert (run + [e])[1..] == run[1..] + [e];
      OneMore(Exec(s, run[0]), run[1..], e, Clock(run[0], t), gap);
    }
  }

  lemma Asked(c: Config, run: seq<Event>, gap: real, end: real, s: Limiter, estimate: nat, at: real, u: real)
    requires Reaches(c, run, gap, end, s) && end <= at <= u <= at + gap
    ensures Reaches(c, run + [Asks(estimate, at, u)], gap, u, Exec(s, Asks(estimate, at, u)))
  {
    hide Exec, Monotone, ClockAfter, Play;
    OneMore(Fresh(c), run, Asks(estimate, at, u), 0.0, gap);
  }

  lemma NothingYet(c: Config, gap: real)
    ensures Reaches(c, [], gap, 0.0, Fresh(c))
  {
  }

  /** n checks at time 0. */
  lemma {:induction false} SpendMany(c: Config, n: nat, gap: real) returns (run: seq<Event>)
    requires Admits(c) && c.burst >= 0.0 && gap >= 0.0 && 1 <= n && n as real <= Capacity(c, Requests)
    ensures Reaches(c, run, gap, 0.0, OneKey(c, Capacity(c, Requests) - n as real, 0.0, Capacity(c, Tokens), 0.0, 0.0))
  {
    hide Exec, OneKey, Capacity, Rate, Times, Reaches;
    CapacityNonnegative(c, Tokens);
    ZeroTimes(Rate(c, Requests));
    ZeroTimes(Rate(c, Tokens));
    if n == 1 {
      NothingYet(c, gap);
      FirstAsk(c, 0, 0.0);
      Asked(c, [], gap, 0.0, Fresh(c), 0, 0.0, 0.0);
      run := [] + [Asks(0, 0.0, 0.0)];
    } else {
      var before := SpendMany(c, n - 1, gap);
      var left := Capacity(c, Requests) - (n - 1) as real;
      NextAsk(c, left, 0.0, Capacity(c, Tokens), 0.0, 0.0, 0, 0.0, 0.0);
      Asked(c, before, gap, 0.0, OneKey(c, left, 0.0, Capacity(c, Tokens), 0.0, 0.0), 0, 0.0, 0.0);
      run := before + [Asks(0, 0.0, 0.0)];
    }
  }

  /** Spend all whole requests at once, wait for the next one, spend it: the bucket is empty. */
  lemma EmptyRequests(c: Config, gap: real) returns (run: seq<Event>, t: real)
    requires Admits(c) && c.burst >= 0.0 && gap >= 0.0
    ensures t >= 0.0 && Reaches(c, run, gap, t, OneKey(c, 0.0, t, Capacity(c, Tokens), 0.0, t))
  {
    hide Exec, OneKey, Capacity, Rate, Times, Reaches;
    CapacityNonnegative(c, Tokens);
    HasRate(c);
    var n: nat := Capacity(c, Requests).Floor;
    var left := Capacity(c, Requests) - n as real;
    var before := SpendMany(c, n, gap);
    t := (1.0 - left) / Rate(c, Requests);
    Quotient(1.0 - left, Rate(c, Requests));
    Nonnegative(t, Rate(c, Tokens));
    NextAsk(c, left, 0.0, Capacity(c, Tokens), 0.0, 0.0, 0, t, t);
    Asked(c, before, gap, 0.0, OneKey(c, left, 0.0, Capacity(c, Tokens), 0.0, 0.0), 0, t, t);
    run := before + [Asks(0, t, t)];
  }

  lemma HasRate(c: Config)
    requires Admits(c) && c.burst >= 0.0
    ensures Rate(c, Requests) > 0.0
  {
  }

  /** The last request of an empty bucket, sighted `late` before it is taken. */
  lemma LateRequest(c: Config, gap: real, late: real) returns (run: seq<Event>, at: real)
    requires Admits(c) && c.burst >= 0.0 && 0.0 <= late <= gap && late <= Regrowth(c, Requests)
    ensures Reaches(c, run, gap, at + late, OneKey(c, 0.0, at + late, Capacity(c, Tokens), 0.0, at))
  {
    hide Exec, OneKey, Capacity, Rate, Times, Reaches;
    HasRate(c);
    CapacityNonnegative(c, Tokens);
    RegrowthIs(c, Requests);
    var before, t := EmptyRequests(c, gap);
    at := t + Regrowth(c, Requests) - late;
    Nonnegative(at + late - 0.0, Rate(c, Tokens));
    assert at + late - t == Regrowth(c, Requests);
    NextAsk(c, 0.0, t, Capacity(c, Tokens), 0.0, t, 0, at, at + late);
    Asked(c, before, gap, t, OneKey(c, 0.0, t, Capacity(c, Tokens), 0.0, t), 0, at, at + late);
    run := before + [Asks(0, at, at + late)];
  }

  /** What two bites of the token bucket cost, when they are no quicker to come back than a request. */
  lemma TwoBites(c: Config) returns (v: real)
    requires Admits(c) && c.burst >= 0.0 && Bite(c, Tokens) >= 1 && Regrowth(c, Tokens) >= Regrowth(c, Requests)
    ensures v == 2.0 * Regrowth(c, Tokens) - FillTime(c) >= 0.0 && Regrowth(c, Tokens) >= 0.0
    ensures Refilled(c, Tokens, Capacity(c, Tokens) - Bite(c, Tokens) as real, v) == Bite(c, Tokens) as real
    ensures Refilled(c, Requests, Capacity(c, Requests) - 1.0, v) >= 1.0
    ensures Refilled(c, Tokens, 0.0, Regrowth(c, Tokens)) == Bite(c, Tokens) as real <= Capacity(c, Tokens)
    ensures Times(Regrowth(c, Tokens), Rate(c, Requests)) >= 1.0
  {
    hide Capacity, Rate, Times, Regrowth, FillTime, Bite;
    var regrowth, fill := Regrowth(c, Tokens), FillTime(c);
    v := 2.0 * regrowth - fill;
    BiteFits(c);
    HasRate(c);
    RegrowthIs(c, Requests);
    RegrowthIs(c, Tokens);
    FillTimeIs(c, Requests);
    FillTimeIs(c, Tokens);
    TimesGrows(Regrowth(c, Requests), regrowth, Rate(c, Requests));
    Doubles(regrowth, fill, Rate(c, Requests));
    Doubles(regrowth, fill, Rate(c, Tokens));
    Sign(v, Rate(c, Tokens));
  }

  lemma BiteFits(c: Config)
    requires c.burst >= 0.0 && Bite(c, Tokens) >= 1
    ensures Bite(c, Tokens) as real <= Capacity(c, Tokens) < Bite(c, Tokens) as real + 1.0
    ensures Rate(c, Tokens) > 0.0 && Bite(c, Requests) == 1
  {
  }

  lemma Doubles(w: real, f: real, r: real)
    ensures Times(2.0 * w - f, r) == 2.0 * Times(w, r) - Times(f, r)
  {
  }

  lemma Sign(v: real, r: real)
    requires r > 0.0 && Times(v, r) >= 0.0
    ensures v >= 0.0
  {
    assert v < 0.0 ==> v * r < 0.0;
  }

  lemma FillTimeIs(c: Config, d: Dimension)
    requires c.burst >= 0.0
    ensures Times(FillTime(c), Rate(c, d)) == Capacity(c, d) && FillTime(c) >= 0.0
  {
    hide Capacity, Rate, Times;
    CapacityNonnegative(c, d);
    Nonnegative(60.0, c.burst);
  }

  /** The last token of a bucket emptied bite by bite, sighted `late` before it is taken. */
  lemma LateTokens(c: Config, gap: real, late: real) returns (run: seq<Event>, at: real, rest: real)
    requires Admits(c) && c.burst >= 0.0 && Bite(c, Tokens) >= 1 && Regrowth(c, Tokens) >= Regrowth(c, Requests)
    requires 0.0 <= late <= gap && late <= Regrowth(c, Tokens)
    ensures Reaches(c, run, gap, at + late, OneKey(c, rest, at + late, 0.0, at + late, at))
  {
    hide Exec, OneKey, Capacity, Rate, Times, Reaches, Regrowth, Bite, FillTime;
    var v := TwoBites(c);
    var m: nat, regrowth := Bite(c, Tokens), Regrowth(c, Tokens);
    var run1, run2 := [] + [Asks(m, 0.0, 0.0)], [] + [Asks(m, 0.0, 0.0)] + [Asks(m, v, v)];
    var left1, left2 := Capacity(c, Requests) - 1.0, Refilled(c, Requests, Capacity(c, Requests) - 1.0, v) - 1.0;
    NothingYet(c, gap);
    FirstAsk(c, m, 0.0);
    Asked(c, [], gap, 0.0, Fresh(c), m, 0.0, 0.0);
    var s1 := OneKey(c, left1, 0.0, Capacity(c, Tokens) - m as real, 0.0, 0.0);
    assert v - 0.0 == v;
    NextAsk(c, left1, 0.0, Capacity(c, Tokens) - m as real, 0.0, 0.0, m, v, v);
    Asked(c, run1, gap, 0.0, s1, m, v, v);
    var s2 := OneKey(c, left2, v, 0.0, v, v);
    at := v + regrowth - late;
    assert at + late - v == regrowth;
    NextAsk(c, left2, v, 0.0, v, v, m, at, at + late);
    Asked(c, run2, gap, v, s2, m, at, at + late);
    run := run2 + [Asks(m, at, at + late)];
    rest := Refilled(c, Requests, left2, regrowth) - 1.0;
  }

  /** A bucket that is not full before a time `full`, while its key is stale from seen + older on. */
  lemma Noticed(c: Config, older: real, gap: real, d: Dimension, run: seq<Event>, end: real, s: Limiter,
      seen: real, full: real)
    requires Reaches(c, run, gap, end, s) && s.config == c && end < full && seen + older < full
    requires KEY in s.lastSeen && s.lastSeen[KEY] == seen && KEY in Buckets(s, d)
    requires forall x | x < full :: Level(Buckets(s, d)[KEY], x) < Capacity(c, d)
    ensures !GcInvisible(c, older, gap)
  {
    hide Monotone, ClockAfter, Play, Level, Capacity;
    var now := (Most(seen + older, end) + full) / 2.0;
    assert seen < now - older && end <= now < full;
    assert !Unnoticed(s, older, KEY, d, now);
    assert Spares(run, older);
    assert !Unnoticed(Play(Fresh(c), run), older, KEY, d, now);
  }

  /** When an empty bucket last refilled at u is full again. */
  lemma NotYetFull(c: Config, d: Dimension, tokens: real, u: real, wait: real)
    requires c.burst >= 0.0 && Rate(c, d) > 0.0 && tokens + Times(wait, Rate(c, d)) == Capacity(c, d) && wait > 0.0
    ensures forall x | x < u + wait :: Level(Bucket(Capacity(c, d), Rate(c, d), tokens, u), x) < Capacity(c, d)
  {
    hide Capacity, Rate, Times;
    forall x | x < u + wait ensures Level(Bucket(Capacity(c, d), Rate(c, d), tokens, u), x) < Capacity(c, d) {
      TimesLess(Since(u, x), wait, Rate(c, d));
    }
  }

  lemma TimesLess(a: real, b: real, c: real)
    requires a < b && c > 0.0
    ensures Times(a, c) < Times(b, c)
  {
    assert (b - a) * c > 0.0;
  }

  /** The dimension whose bites take longest to come back. */
  function Slowest(c: Config): Dimension {
    if Regrowth(c, Tokens) >= Regrowth(c, Requests) then Tokens else Requests
  }

  lemma SlowestIs(c: Config)
    requires Admits(c) && c.burst >= 0.0
    ensures var d := Slowest(c);
      && Slack(c) == Regrowth(c, d) > 0.0 && Rate(c, d) > 0.0 && 1 <= Bite(c, d)
      && Bite(c, d) as real <= Capacity(c, d)
  {
    hide Capacity, Rate, Times;
    HasRate(c);
    RegrowthIs(c, Requests);
    RegrowthIs(c, Tokens);
    CapacityNonnegative(c, Tokens);
  }

  /** Within the fill time: the bucket is emptied late, and collected before it is full. */
  lemma LateShows(c: Config, older: real, gap: real)
    requires Admits(c) && c.burst >= 0.0 && 0.0 <= gap <= FillTime(c) && older < FillTime(c) + Least(gap, Slack(c))
    ensures !GcInvisible(c, older, gap)
  {
    hide Capacity, Rate, Times, Reaches, Regrowth, Bite, FillTime, GcInvisible, Level;
    SlowestIs(c);
    var d, late := Slowest(c), Least(gap, Slack(c));
    FillTimeIs(c, d);
    FillsSomeTime(c, d);
    if d.Tokens? {
      var run, at, rest := LateTokens(c, gap, late);
      NotYetFull(c, d, 0.0, at + late, FillTime(c));
      Noticed(c, older, gap, d, run, at + late, OneKey(c, rest, at + late, 0.0, at + late, at), at,
              at + late + FillTime(c));
    } else {
      var run, at := LateRequest(c, gap, late);
      NotYetFull(c, d, 0.0, at + late, FillTime(c));
      Noticed(c, older, gap, d, run, at + late, OneKey(c, 0.0, at + late, Capacity(c, Tokens), 0.0, at), at,
              at + late + FillTime(c));
    }
  }

  lemma FillsSomeTime(c: Config, d: Dimension)
    requires c.burst >= 0.0 && 1.0 <= Capacity(c, d) == Times(FillTime(c), Rate(c, d))
    ensures FillTime(c) > 0.0
  {
    assert FillTime(c) == 0.0 ==> Capacity(c, d) == 0.0;
  }

  /** Beyond it: a new key takes its bite a whole gap after it was sighted. */
  lemma SlowShows(c: Config, older: real, gap: real)
    requires Admits(c) && c.burst >= 0.0 && gap > FillTime(c) && older < gap + Slack(c)
    ensures !GcInvisible(c, older, gap)
  {
    hide Capacity, Rate, Times, Reaches, Regrowth, FillTime, GcInvisible, Level, Exec;
    SlowestIs(c);
    var d := Slowest(c);
    FillTimeIs(c, d);
    RegrowthIs(c, d);
    CapacityNonnegative(c, Tokens);
    var estimate: nat := if d.Tokens? then Bite(c, Tokens) else 0;
    NothingYet(c, gap);
    FirstAsk(c, estimate, gap);
    Asked(c, [], gap, 0.0, Fresh(c), estimate, 0.0, gap);
    NotYetFull(c, d, Capacity(c, d) - Bite(c, d) as real, gap, Slack(c));
    Noticed(c, older, gap, d, [] + [Asks(estimate, 0.0, gap)], gap, Exec(Fresh(c), Asks(estimate, 0.0, gap)), 0.0,
            gap + Slack(c));
  }

  // ----- exactly long enough -----

  lemma FreshIsFilled(c: Config, idle: real)
    ensures Filled(Fresh(c), idle)
  {
  }

  lemma FreshBrims(c: Config)
    requires c.burst >= 0.0
    ensures Brimming(Fresh(c))
  {
  }

  /** Collections go unnoticed exactly when they spare the keys seen within the threshold; a
      limiter that grants nothing never notices one. */
  lemma GcExactly(c: Config, older: real, gap: real)
    requires c.burst >= 0.0 && gap >= 0.0
    ensures GcInvisible(c, older, gap) <==> (Admits(c) ==> older >= Threshold(c, gap))
  {
    hide Exec, Capacity, Monotone, ClockAfter, FillTime, Play, Sound, Spares, Unnoticed, Filled, Brimming, Slack;
    hide Admits;
    if Admits(c) && older < Threshold(c, gap) {
      if gap <= FillTime(c) {
        LateShows(c, older, gap);
      } else {
        SlowShows(c, older, gap);
      }
    } else {
      forall run: seq<Event>, start: real, k: string, d: Dimension, now: real
        | Monotone(run, start, gap) && Spares(run, older) && ClockAfter(run, start) <= now
        ensures Unnoticed(Play(Fresh(c), run), older, k, d, now)
      {
        if Admits(c) {
          ThresholdIsAmple(c, gap, older);
          FreshIsSound(c, start, gap);
          FreshIsFilled(c, older);
          RunFills(Fresh(c), run, start, gap, older);
          SoundLater(Play(Fresh(c), run), ClockAfter(run, start), now, gap);
          AmpleIsUnnoticed(Play(Fresh(c), run), older, k, d, now, gap);
        } else {
          FreshBrims(c);
          RunBrims(Fresh(c), run);
          BrimIsUnnoticed(Play(Fresh(c), run), older, k, d, now);
        }
      }
    }
  }

  /** For a clock that moves no more during a check than a bite takes to come back, that is
      sixty times the burst multiplier and the gap. */
  lemma ThresholdIs(c: Config, gap: real)
    requires Admits(c) && c.burst >= 0.0 && 0.0 <= gap <= Slack(c)
    ensures Threshold(c, gap) == Times(60.0, c.burst) + gap
  {
    hide Slack, Times;
  }

  /** Sixty requests a minute without a burst: keys idle for half a minute are collected too early. */
  lemma HalfMinuteShows()
    ensures !GcInvisible(Config(60, 60, 1, 1.0), 30.0, 0.0)
  {
    hide GcInvisible;
    GcExactly(Config(60, 60, 1, 1.0), 30.0, 0.0);
  }

  /** A clock that moves half a second within a check: sixty times the burst multiplier is not enough. */
  lemma SlowClockShows()
    ensures !GcInvisible(Config(1, 1, 1, 1.0), 60.0, 0.5)
  {
    hide GcInvisible;
    GcExactly(Config(1, 1, 1, 1.0), 60.0, 0.5);
  }
}
