/** The invariants of the scheduler, and of the scheduler together with the cache. */
module SchedulerInvariant {
  import opened BlockPool
  import opened BlockPoolInvariant
  import opened SchedulerModel

  /** In how many places a request is: its occurrences in the three queues, and the aborted. */
  function Places(s: Sched, id: SeqId): nat {
    multiset(s.waiting)[id] + multiset(s.running)[id] + multiset(s.finished)[id]
    + if id in s.aborted then 1 else 0
  }

  /** Every request ever accepted is in exactly one place, and nothing else is anywhere. */
  ghost predicate Conserved(s: Sched) {
    forall id: SeqId :: Places(s, id) == if id in s.reqs then 1 else 0
  }

  /** The cache holds a table for exactly the running requests. */
  ghost predicate TablesAreRunning(s: Sched) {
    forall id: SeqId :: id in View(s.cache) <==> id in s.running
  }

  /** Waiting requests start over: nothing prefilled, all generated tokens in the prompt. */
  ghost predicate WaitingReset(s: Sched) {
    forall id | id in s.waiting :: Req(s, id).prefillOffset == 0 && Req(s, id).output == []
  }

  /** Prompt and output together are the original prompt and everything generated since, in order. */
  ghost predicate HistoryOk(r: Request) {
    && r.prompt != [] && r.maxTokens >= 1
    && r.prompt + r.output == r.original + r.generated
  }

  ghost predicate HistoriesOk(s: Sched) {
    forall id | id in s.reqs :: HistoryOk(s.reqs[id])
  }

  ghost predicate QueueLimits(s: Sched) {
    && |s.running| <= s.cfg.maxRunning
    && |s.waiting| + |s.running| <= s.cfg.maxWaiting + s.cfg.maxRunning
  }

  ghost predicate PoolOk(s: Sched) {
    Inv(s.cache) && Reserve(|s.cache.blocks|, s.cfg.watermark) >= 0
  }

  /** What holds in every state, whether or not the last step was cut short. */
  ghost predicate Sound(s: Sched) {
    && PoolOk(s) && Conserved(s) && TablesAreRunning(s)
    && WaitingReset(s) && HistoriesOk(s) && QueueLimits(s)
  }

  // ----- progress -----

  /** The cache holds exactly the prefilled part of the prompt and the generated tokens. */
  ghost predicate InStep(s: Sched, id: SeqId) {
    var r := Req(s, id);
    && id in View(s.cache)
    && r.prefillOffset <= |r.prompt|
    && (r.output != [] ==> r.prefillOffset == |r.prompt|)
    && View(s.cache)[id] == r.prompt[..r.prefillOffset] + r.output
  }

  /** Just admitted: the first chunk is allocated, and the offset not yet advanced over it. */
  ghost predicate JustAdmitted(s: Sched, id: SeqId, chunk: nat) {
    var r := Req(s, id);
    && id in View(s.cache)
    && r.prefillOffset == 0 && r.output == [] && 0 < chunk <= |r.prompt|
    && View(s.cache)[id] == r.prompt[..chunk]
  }

  /** Mid-step: the requests of `newly` are just admitted, all others in step. */
  ghost predicate Loaded(s: Sched, newly: map<SeqId, nat>) {
    && (forall id | id in newly :: id in s.running)
    && (forall id | id in s.running :: if id in newly then JustAdmitted(s, id, newly[id]) else InStep(s, id))
  }

  ghost predicate Settled(s: Sched) {
    forall id | id in s.running :: InStep(s, id)
  }

  /** Each preemption can fold at most maxTokens generated tokens into the prompt. */
  ghost predicate Bounded(r: Request) {
    && |r.prompt| <= |r.original| + r.preemptions * r.maxTokens
    && |r.output| <= r.maxTokens
  }

  ghost predicate LengthsOk(s: Sched) {
    && (forall id | id in s.reqs :: Bounded(s.reqs[id]))
    && (forall id | id in s.running :: |Req(s, id).output| < Req(s, id).maxTokens)
  }

  // ----- budget -----

  ghost function Pick(m: map<SeqId, nat>): (k: SeqId)
    requires m != map[]
    ensures k in m
  {
    assert m.Keys != {};
    var k :| k in m; k
  }

  /** The sum of a map's values. */
  ghost function Sum(m: map<SeqId, nat>): nat
    decreases |m|
  {
    if m == map[] then 0
    else
      var k := Pick(m);
      assert (m - {k}).Keys == m.Keys - {k};
      m[k] + Sum(m - {k})
  }

  /** The tokens a pass has scheduled, and what is left of its budget, stay within `limit`. */
  ghost predicate WithinBudget(p: Pass, limit: nat) {
    |p.batch.decode| + Sum(p.batch.chunkSizes) + p.budget <= limit && 0 <= p.budget
  }

  /** Everything a batch names is a known request, and every prefill has a positive chunk. */
  ghost predicate BatchOk(s: Sched, b: Batch) {
    && (forall id | id in b.prefill :: id in s.reqs && id in b.chunkSizes && b.chunkSizes[id] > 0)
    && (forall id | id in b.decode :: id in s.reqs)
  }

  /** The just-admitted requests are scheduled for prefill with the chunk they were given. */
  ghost predicate NewlyInBatch(b: Batch, newly: map<SeqId, nat>) {
    forall id | id in newly :: id in b.prefill && id in b.chunkSizes && b.chunkSizes[id] == newly[id]
  }

  /** What holds throughout a scheduling pass. `normal` is set for a pass over a state no
      exception has touched; then the progress and length facts hold as well. */
  ghost predicate PassOk(p: Pass, limit: nat, newly: map<SeqId, nat>, normal: bool) {
    && Sound(p.sched) && !p.raised
    && WithinBudget(p, limit) && BatchOk(p.sched, p.batch) && NewlyInBatch(p.batch, newly)
    && (normal ==> Loaded(p.sched, newly) && LengthsOk(p.sched))
  }
}
