/** What each check answers and charges, told by the budgets before it, and what the concurrency count counts. */
module RateLimitVerdicts {
  import opened Prelude
  import opened RateLimitModel
  import opened RateLimitProofs

  /** The wait announced is the time the dimension takes to refill from the level to the amount. */
  ghost predicate WaitFor(c: Config, d: Dimension, level: real, amount: real, retry: Option<real>) {
    if Rate(c, d) == 0.0 then retry.None? else retry.Some? && Times(retry.value, Rate(c, d)) == amount - level
  }

  /** The verdict of a check: the first of the three limits that is met decides, concurrency, requests, tokens. */
  ghost predicate Judged(s: Limiter, key: string, estimate: nat, r: Readings, v: Verdict) {
    var requests, tokens := Budget(s, key, Requests, r.request), Budget(s, key, Tokens, r.tokens);
    if Running(s, key) >= s.config.concurrentPerKey then v.TooManyConcurrent?
    else if requests < 1.0 then v.TooManyRequests? && WaitFor(s.config, Requests, requests, 1.0, v.retry)
    else if estimate > 0 && tokens < estimate as real then
      v.TooManyTokens? && WaitFor(s.config, Tokens, tokens, estimate as real, v.retry)
    else v.Admitted?
  }

  lemma RetryIs(c: Config, d: Dimension, b: Bucket, amount: real)
    requires b.rate == Rate(c, d) && b.tokens < amount
    ensures WaitFor(c, d, b.tokens, amount, RetryAfter(b, amount))
  {
    if b.rate != 0.0 {
      assert Times((amount - b.tokens) / b.rate, b.rate) == amount - b.tokens;
    }
  }

  lemma ConsumedLevel(b: Bucket, amount: real, now: real)
    requires Healthy(b, now) && amount >= 0.0
    ensures var (c, ok) := Consume(b, amount, now);
      && (ok <==> Level(b, now) >= amount) && c.rate == b.rate
      && (!ok ==> c.tokens == Level(b, now)) && Level(c, now) == Level(b, now) - (if ok then amount else 0.0)
  {
    hide Times, Level;
    ConsumeIs(b, amount, now);
    RefillKeepsLevel(b, now, now);
  }

  /** The verdict and the charge, told by the levels of the key's two buckets. */
  ghost predicate Charged(s: Limiter, key: string, estimate: nat, r: Readings, s': Limiter, v: Verdict)
    requires key in s.requests && key in s.tokens && key in s'.requests && key in s'.tokens
  {
    var requests, tokens := Level(s.requests[key], r.request), Level(s.tokens[key], r.tokens);
    if requests < 1.0 then v.TooManyRequests? && WaitFor(s.config, Requests, requests, 1.0, v.retry)
    else if estimate > 0 && tokens < estimate as real then
      v.TooManyTokens? && WaitFor(s.config, Tokens, tokens, estimate as real, v.retry)
    else
      && v.Admitted? && Level(s'.requests[key], r.request) == requests - 1.0
      && Level(s'.tokens[key], r.tokens) == tokens - estimate as real
  }

  lemma ChargeIs(s: Limiter, key: string, estimate: nat, r: Readings)
    requires key in s.requests && key in s.tokens
    requires Healthy(s.requests[key], r.request) && Healthy(s.tokens[key], r.tokens)
    requires s.requests[key].rate == Rate(s.config, Requests) && s.tokens[key].rate == Rate(s.config, Tokens)
    ensures var (s', v) := Charge(s, key, estimate, r);
      && key in s'.requests && key in s'.tokens && Charged(s, key, estimate, r, s', v)
      && s' == s.(requests := s.requests[key := s'.requests[key]], tokens := s.tokens[key := s'.tokens[key]])
  {
    hide Rate, Level, Consume, Healthy, RetryAfter, WaitFor;
    ConsumedLevel(s.requests[key], 1.0, r.request);
    ConsumedLevel(s.tokens[key], estimate as real, r.tokens);
    var (req, ok) := Consume(s.requests[key], 1.0, r.request);
    var (tok, enough) := Consume(s.tokens[key], estimate as real, r.tokens);
    assert s.tokens[key := s.tokens[key]] == s.tokens;
    if !ok {
      RetryIs(s.config, Requests, req, 1.0);
    }
    if !enough {
      RetryIs(s.config, Tokens, tok, estimate as real);
    }
  }

  /** Only the key's own buckets and its sighting differ. */
  ghost predicate OnlyKey(s: Limiter, s': Limiter, key: string, seen: real) {
    && (forall k, d | k != key :: (k in Buckets(s', d) <==> k in Buckets(s, d))
                                 && (k in Buckets(s, d) ==> Buckets(s', d)[k] == Buckets(s, d)[k]))
    && s'.concurrent == s.concurrent && s'.lastSeen == s.lastSeen[key := seen] && s'.config == s.config
  }

  /** Every check is decided by the budgets it finds, in this order, and an admitted one is charged one request
      and its estimate. Nothing else changes but the sighting: no other key's buckets, and no count. */
  lemma VerdictIs(s: Limiter, key: string, estimate: nat, r: Readings, gap: real)
    requires Sound(s, r.first, gap) && Ordered(r, gap)
    ensures var (s', v) := Check(s, key, estimate, r);
      && Judged(s, key, estimate, r, v) && OnlyKey(s, s', key, r.seen)
      && (v.Admitted? ==>
            && Budget(s', key, Requests, r.request) == Budget(s, key, Requests, r.request) - 1.0
            && Budget(s', key, Tokens, r.tokens) == Budget(s, key, Tokens, r.tokens) - estimate as real)
  {
    SightedFirst(s, key, r, gap);
    hide Sighted, Capacity, Rate, Level, Times, Healthy, WaitFor, Charge, Sound, OnlyKey;
    var s1 := Sighted(s, key, r);
    SightedBucket(s1, key, Requests, r.seen, gap);
    SightedBucket(s1, key, Tokens, r.seen, gap);
    SightedBudget(s, key, r, key, Requests, r.request);
    SightedBudget(s, key, r, key, Tokens, r.tokens);
    HealthyLater(s1.requests[key], r.seen, r.request);
    HealthyLater(s1.tokens[key], r.seen, r.tokens);
    ChargeIs(s1, key, estimate, r);
    StillOnlyKey(s, s1, Charge(s1, key, estimate, r).0, key, r.seen);
  }

  lemma SightedFirst(s: Limiter, key: string, r: Readings, gap: real)
    requires Sound(s, r.first, gap) && Ordered(r, gap)
    ensures var s1 := Sighted(s, key, r);
      && Sound(s1, r.seen, gap) && key in s1.lastSeen && key in s1.requests && key in s1.tokens
      && s1.config == s.config && s1.concurrent == s.concurrent && OnlyKey(s, s1, key, r.seen)
      && s.config.burst >= 0.0 && s.requests.Keys == s.tokens.Keys
  {
    hide Sighted, BucketOk, OnlyKey;
    SightedKeeps(s, key, r, gap);
    SightedAlone(s, key, r);
  }

  lemma StillOnlyKey(s: Limiter, s1: Limiter, s': Limiter, key: string, seen: real)
    requires OnlyKey(s, s1, key, seen) && key in s'.requests && key in s'.tokens
    requires s' == s1.(requests := s1.requests[key := s'.requests[key]], tokens := s1.tokens[key := s'.tokens[key]])
    ensures OnlyKey(s, s', key, seen)
  {
    forall k, d | k != key
      ensures k in Buckets(s', d) <==> k in Buckets(s, d)
      ensures k in Buckets(s, d) ==> Buckets(s', d)[k] == Buckets(s, d)[k]
    {
      assert k in Buckets(s1, d) <==> k in Buckets(s, d);
    }
  }

  lemma HealthyLater(b: Bucket, t: real, t': real)
    requires Healthy(b, t) && t <= t'
    ensures Healthy(b, t')
  {
  }

  /** Sighting a key touches no other key's buckets. */
  lemma SightedAlone(s: Limiter, key: string, r: Readings)
    requires s.requests.Keys == s.tokens.Keys
    ensures var s1 := Sighted(s, key, r);
      OnlyKey(s, s1, key, r.seen)
  {
    hide Times;
  }

  // ----- what is in flight -----

  /** Acquisitions of the key less its releases. */
  function Net(run: seq<Event>, key: string): int {
    if run == [] then 0
    else (if run[0] == Acquired(key) then 1 else if run[0] == Released(key) then -1 else 0) + Net(run[1..], key)
  }

  /** The largest net of all ends of the run, the empty one included. */
  ghost predicate LargestNet(run: seq<Event>, key: string, n: int) {
    && (exists j: nat :: j <= |run| && Net(run[j..], key) == n)
    && (forall j: nat | j <= |run| :: Net(run[j..], key) <= n)
  }

  lemma ExecRuns(s: Limiter, e: Event, key: string)
    requires Running(s, key) >= 0
    ensures Running(Exec(s, e), key) ==
      if e == Acquired(key) then Running(s, key) + 1
      else if e == Released(key) then Max(0, Running(s, key) - 1)
      else Running(s, key)
  {
    hide Consume, Times, Stale;
  }

  lemma {:induction false} CountedFrom(s: Limiter, run: seq<Event>, key: string, most: int)
    requires Running(s, key) >= 0 && LargestNet(run, key, most)
    ensures Running(Play(s, run), key) == Max(Running(s, key) + Net(run, key), most)
    decreases |run|
  {
    hide Exec, LargestNet;
    if run == [] {
      NothingNet(key, most);
    } else {
      var rest := run[1..];
      ExecRuns(s, run[0], key);
      var more := SomeLargest(rest, key);
      CountedFrom(Exec(s, run[0]), rest, key, more);
      LargestNext(run, key, more, most);
    }
  }

  lemma NothingNet(key: string, most: int)
    requires LargestNet([], key, most)
    ensures most == 0
  {
    var j: nat :| j <= 0 && Net([][j..], key) == most;
  }

  lemma LargestNext(run: seq<Event>, key: string, more: int, most: int)
    requires run != [] && LargestNet(run[1..], key, more) && LargestNet(run, key, most)
    ensures most == Max(Net(run, key), more) && Net(run[1..], key) <= more && more >= 0
  {
    var rest := run[1..];
    assert run[0..] == run && rest[0..] == rest && rest[|rest|..] == [];
    forall j: nat | j <= |rest| ensures rest[j..] == run[j + 1..] {
    }
    var j: nat :| j <= |run| && Net(run[j..], key) == most;
    if j > 0 {
      assert rest[j - 1..] == run[j..];
    }
    var i: nat :| i <= |rest| && Net(rest[i..], key) == more;
    assert Net(run[i + 1..], key) == more;
  }

  lemma {:induction false} SomeLargest(run: seq<Event>, key: string) returns (n: int)
    ensures LargestNet(run, key, n)
  {
    if run == [] {
      n := 0;
      assert run[0..] == [];
    } else {
      var rest := run[1..];
      var more := SomeLargest(rest, key);
      n := Max(Net(run, key), more);
      assert run[0..] == run;
      forall j: nat | j <= |run| ensures Net(run[j..], key) <= n {
        if j > 0 {
          assert rest[j - 1..] == run[j..];
        }
      }
      var i: nat :| i <= |rest| && Net(rest[i..], key) == more;
      assert rest[i..] == run[i + 1..];
    }
  }

  /** After any run the count is the largest net of all its ends: the requests in flight, when no release comes
      without its acquisition, and never less than those since any moment. */
  lemma CountIs(c: Config, run: seq<Event>, key: string, most: int)
    requires LargestNet(run, key, most)
    ensures Running(Play(Fresh(c), run), key) == most
  {
    assert run[0..] == run;
    CountedFrom(Fresh(c), run, key, most);
  }

  predicate Passing(s: Limiter, e: Event, key: string) {
    e.Checked? && e.key == key && Check(s, key, e.estimate, e.readings).1.Admitted?
  }

  /** Every acquisition follows at once on an admitted check of its key. */
  ghost predicate Guarded(s: Limiter, run: seq<Event>) {
    forall i: nat | i < |run| && run[i].Acquired? :: i > 0 && Passing(Play(s, run[..i - 1]), run[i - 1], run[i].key)
  }

  lemma {:induction false} PlayNext(s: Limiter, run: seq<Event>, i: nat)
    requires i < |run|
    ensures Play(s, run[..i + 1]) == Exec(Play(s, run[..i]), run[i])
    decreases i
  {
    hide Exec;
    if i > 0 {
      assert run[..i + 1][1..] == run[1..][..i] && run[..i][1..] == run[1..][..i - 1];
      PlayNext(Exec(s, run[0]), run[1..], i - 1);
    } else {
      assert run[..1] == [run[0]];
    }
  }

  /** Then a key never has more in flight than it may. */
  lemma {:induction false} ConcurrencyBound(s: Limiter, run: seq<Event>, key: string, i: nat)
    requires 0 <= Running(s, key) <= s.config.concurrentPerKey && Guarded(s, run) && i <= |run|
    ensures Play(s, run[..i]).config == s.config
    ensures 0 <= Running(Play(s, run[..i]), key) <= s.config.concurrentPerKey
  {
    hide Exec, Check, Play;
    if i == 0 {
      PlayNothing(s);
      assert run[..0] == [];
    } else {
      ConcurrencyBound(s, run, key, i - 1);
      PlayNext(s, run, i - 1);
      var before := Play(s, run[..i - 1]);
      ExecRuns(before, run[i - 1], key);
      ExecConfig(before, run[i - 1]);
      if run[i - 1] == Acquired(key) {
        var earlier := Play(s, run[..i - 2]);
        PlayNext(s, run, i - 2);
        ConcurrencyBound(s, run, key, i - 2);
        PassingHasRoom(earlier, run[i - 2], key);
        ExecRuns(earlier, run[i - 2], key);
      }
    }
  }

  lemma PlayNothing(s: Limiter)
    ensures Play(s, []) == s
  {
  }

  lemma ExecConfig(s: Limiter, e: Event)
    ensures Exec(s, e).config == s.config
  {
    hide Consume, Times, Stale;
  }

  lemma PassingHasRoom(s: Limiter, e: Event, key: string)
    requires Passing(s, e, key)
    ensures Running(s, key) < s.config.concurrentPerKey
  {
    hide Consume, Times;
  }
}
