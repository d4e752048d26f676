/** Token buckets per key, in two dimensions, with a concurrency limit and a collector of idle
    keys. Every operation takes the clock readings it makes. */
module RateLimitModel {
  import opened Prelude

  datatype Config = Config(requestsPerMinute: nat, tokensPerMinute: nat, concurrentPerKey: int, burst: real)

  datatype Bucket = Bucket(capacity: real, rate: real, tokens: real, last: real)

  datatype Limiter = Limiter(config: Config, requests: map<string, Bucket>, tokens: map<string, Bucket>,
    concurrent: map<string, int>, lastSeen: map<string, real>)

  // ----- one bucket -----

  /** A new bucket is full. */
  function NewBucket(perMinute: nat, burst: real, now: real): Bucket {
    Bucket(Times(perMinute as real, burst), perMinute as real / 60.0, Times(perMinute as real, burst), now)
  }

  function Refill(b: Bucket, now: real): Bucket {
    if now > b.last then b.(tokens := Least(b.capacity, b.tokens + Times(now - b.last, b.rate)), last := now) else b
  }

  function Consume(b: Bucket, amount: real, now: real): (Bucket, bool) {
    var r := Refill(b, now);
    if r.tokens >= amount then (r.(tokens := r.tokens - amount), true) else (r, false)
  }

  /** Seconds until the amount is there; None when it never will be. */
  function RetryAfter(b: Bucket, amount: real): Option<real> {
    if amount <= b.tokens then Some(0.0)
    else if b.rate == 0.0 then None
    else Some((amount - b.tokens) / b.rate)
  }

  // ----- the limiter -----

  /** The clock readings of one check, in the order they are made: the two buckets if they are
      new, the sighting of the key, the two consumptions. */
  datatype Readings = Readings(first: real, second: real, seen: real, request: real, tokens: real)

  datatype Verdict = Admitted | TooManyConcurrent | TooManyRequests(retry: Option<real>)
    | TooManyTokens(retry: Option<real>)

  function Running(s: Limiter, key: string): int {
    if key in s.concurrent then s.concurrent[key] else 0
  }

  /** The key's buckets exist and the key has been seen. */
  function Sighted(s: Limiter, key: string, r: Readings): (s': Limiter)
    ensures key in s'.requests
  {
    var created :=
      if key in s.requests then s
      else s.(requests := s.requests[key := NewBucket(s.config.requestsPerMinute, s.config.burst, r.first)],
              tokens := s.tokens[key := NewBucket(s.config.tokensPerMinute, s.config.burst, r.second)]);
    created.(lastSeen := created.lastSeen[key := r.seen])
  }

  /** A key has both buckets or neither, so the test for the second one always succeeds. */
  function Check(s: Limiter, key: string, estimate: nat, r: Readings): (Limiter, Verdict) {
    var s1 := Sighted(s, key, r);
    if Running(s1, key) >= s1.config.concurrentPerKey then (s1, TooManyConcurrent) else Charge(s1, key, estimate, r)
  }

  /** The consumptions of a check, with the refund of a request whose tokens were refused. */
  function Charge(s: Limiter, key: string, estimate: nat, r: Readings): (Limiter, Verdict)
    requires key in s.requests
  {
    var (req, ok) := Consume(s.requests[key], 1.0, r.request);
    if !ok then (s.(requests := s.requests[key := req]), TooManyRequests(RetryAfter(req, 1.0)))
    else if estimate == 0 || key !in s.tokens then (s.(requests := s.requests[key := req]), Admitted)
    else
      var (tok, enough) := Consume(s.tokens[key], estimate as real, r.tokens);
      var s1 := s.(tokens := s.tokens[key := tok]);
      if enough then (s1.(requests := s.requests[key := req]), Admitted)
      else
        (s1.(requests := s.requests[key := req.(tokens := req.tokens + 1.0)]),
         TooManyTokens(RetryAfter(tok, estimate as real)))
  }

  function Acquire(s: Limiter, key: string): Limiter {
    s.(concurrent := s.concurrent[key := Running(s, key) + 1])
  }

  function Release(s: Limiter, key: string): Limiter {
    var remaining := Running(s, key) - 1;
    s.(concurrent := if remaining > 0 then s.concurrent[key := remaining] else s.concurrent - {key})
  }

  /** The keys not seen for longer than `older`. */
  function Stale(s: Limiter, older: real, now: real): set<string> {
    set k | k in s.lastSeen && s.lastSeen[k] < now - older
  }

  function Collect(s: Limiter, older: real, now: real): Limiter {
    var stale := Stale(s, older, now);
    s.(requests := s.requests - stale, tokens := s.tokens - stale, lastSeen := s.lastSeen - stale)
  }

  function Fresh(c: Config): Limiter {
    Limiter(c, map[], map[], map[], map[])
  }

  // ----- runs -----

  datatype Event =
    | Checked(key: string, estimate: nat, readings: Readings)
    | Acquired(key: string)
    | Released(key: string)
    | Collected(older: real, now: real)

  function Exec(s: Limiter, e: Event): Limiter {
    match e
    case Checked(key, estimate, r) => Check(s, key, estimate, r).0
    case Acquired(key) => Acquire(s, key)
    case Released(key) => Release(s, key)
    case Collected(older, now) => Collect(s, older, now)
  }

  function Play(s: Limiter, run: seq<Event>): Limiter
    decreases |run|
  {
    if run == [] then s else Play(Exec(s, run[0]), run[1..])
  }

  /** The clock when the event is over, if it was t before. */
  function Clock(e: Event, t: real): real {
    match e
    case Checked(key, estimate, r) => r.tokens
    case Collected(older, now) => now
    case _ => t
  }

  function ClockAfter(run: seq<Event>, t: real): real {
    if run == [] then t else ClockAfter(run[1..], Clock(run[0], t))
  }

  /** The readings of a check are in order and within `gap` of each other. */
  predicate InOrder(e: Event, t: real, gap: real) {
    match e
    case Checked(key, estimate, r) =>
      t <= r.first <= r.second <= r.seen <= r.request <= r.tokens <= r.first + gap
    case Collected(older, now) => t <= now
    case _ => true
  }

  /** The clock never goes back. */
  predicate Monotone(run: seq<Event>, t: real, gap: real) {
    run == [] || (InOrder(run[0], t, gap) && Monotone(run[1..], Clock(run[0], t), gap))
  }

  /** Every collection spares keys seen in the last `older` seconds. */
  predicate Spares(run: seq<Event>, older: real) {
    forall i :: 0 <= i < |run| && run[i].Collected? ==> run[i].older >= older
  }

  datatype Dimension = Requests | Tokens

  /** What an event takes from the key's budget. */
  function Taken(s: Limiter, e: Event, key: string, d: Dimension): real {
    if e.Checked? && e.key == key && Check(s, key, e.estimate, e.readings).1.Admitted? then
      if d.Requests? then 1.0 else e.estimate as real
    else 0.0
  }

  function TakenBy(s: Limiter, run: seq<Event>, key: string, d: Dimension): real
    decreases |run|
  {
    if run == [] then 0.0 else Taken(s, run[0], key, d) + TakenBy(Exec(s, run[0]), run[1..], key, d)
  }
}
