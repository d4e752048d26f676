/** The scheduler as an object over its cache. Each method performs, in place, the
    operation of the same name on the state described in SchedulerModel.dfy. */
module Scheduler {
  import opened Prelude
  import opened BlockPool
  import opened BlockPoolInvariant
  import opened SchedulerModel
  import opened SchedulerInvariant
  import opened SchedulerSteps
  import opened SchedulerPass
  import SchedulerEngine
  import SchedulerProgress
  import PagedKVCache

  datatype AddStatus = Added | ErrContextLengthExceeded | ErrQueueFull

  class Scheduler {
    const cfg: Config
    const cache: PagedKVCache.KVCache
    var requests: map<SeqId, Request>
    var waiting: seq<SeqId>
    var running: seq<SeqId>
    var finished: seq<SeqId>
    ghost var aborted: set<SeqId>

    ghost function State(): Sched
      reads this, cache
    {
      Sched(cfg, cache.State(), requests, waiting, running, finished, aborted)
    }

    constructor (cfg: Config, cache: PagedKVCache.KVCache)
      requires cache.Valid() && cache.tables == map[]
      requires Reserve(|cache.blocks|, cfg.watermark) >= 0
      ensures this.cfg == cfg && this.cache == cache
      ensures Sound(State()) && Settled(State()) && LengthsOk(State())
    {
      this.cfg, this.cache := cfg, cache;
      requests, waiting, running, finished, aborted := map[], [], [], [], {};
    }

    // ----- admission to the queue -----

    method AddRequest(id: SeqId, prompt: seq<Token>, maxTokens: nat) returns (r: AddStatus)
      requires Sound(State()) && id !in requests && prompt != [] && maxTokens >= 1
      modifies this
      ensures Sound(State())
      ensures r == match SchedulerModel.AddRequest(old(State()), id, prompt, maxTokens)
                   case Accepted(_) => Added
                   case ContextLengthExceeded => ErrContextLengthExceeded
                   case QueueFull => ErrQueueFull
      ensures if r == Added then Accepted(State()) == SchedulerModel.AddRequest(old(State()), id, prompt, maxTokens)
              else State() == old(State())
    {
      SchedulerEngine.AddKeeps(State(), id, prompt, maxTokens);
      if |prompt| + maxTokens > cfg.maxContext {
        return ErrContextLengthExceeded;
      }
      if |waiting| >= cfg.maxWaiting {
        return ErrQueueFull;
      }
      requests := requests[id := Request(prompt, [], maxTokens, 0, 0, 0, Waiting, prompt, [])];
      waiting := waiting + [id];
      r := Added;
    }

    method Abort(id: SeqId) returns (found: bool)
      requires Sound(State())
      modifies this, cache
      ensures Sound(State())
      ensures found <==> id in old(waiting) || id in old(running)
      ensures if found then Some(State()) == SchedulerModel.Abort(old(State()), id) else State() == old(State())
    {
      hide FreeOk, RefOk, IndexOk, HashOk, TablesOk, View, Conserved, Without, Free;
      SchedulerEngine.AbortKeeps(State(), id);
      if id in waiting {
        waiting := Without(waiting, id);
      } else if id in running {
        running := Without(running, id);
      } else {
        return false;
      }
      requests := requests[id := (if id in requests then requests[id] else NO_REQUEST).(state := Finished)];
      aborted := aborted + {id};
      var _ := cache.FreeSequence(id);
      found := true;
    }

    // ----- the step -----

    /** Evicts the most recently admitted request to free its blocks. */
    method PreemptNewest() returns (victim: Option<SeqId>)
      requires Sound(State())
      modifies this, cache
      ensures Sound(State())
      ensures victim.None? <==> old(running) == []
      ensures victim.None? ==> State() == old(State())
      ensures victim.Some? ==> victim.value == old(running)[|old(running)| - 1] && State() == Preempt(old(State()))
    {
      hide FreeOk, RefOk, IndexOk, HashOk, TablesOk, View, Free, Conserved, WaitingReset, HistoriesOk, QueueLimits;
      hide TablesAreRunning;
      if running == [] {
        return None;
      }
      PreemptKeeps(State());
      var v := running[|running| - 1];
      RunningOnce(State(), v);
      running := running[..|running| - 1];
      var _ := cache.FreeSequence(v);
      requests := requests[v := Folded(requests[v])];
      waiting := [v] + waiting;
      victim := Some(v);
    }

    /** Builds a batch: decodes first, then prefills in flight, then admissions in FIFO order. */
    method Schedule() returns (batch: Batch)
      requires Sound(State())
      modifies this, cache
      ensures Sound(State())
      ensures var p := SchedulerModel.Schedule(old(State()));
        State() == p.sched && batch == p.batch && SchedulerProgress.ServesInOrder(old(State()), p)
      ensures |batch.decode| + Sum(batch.chunkSizes) <= cfg.maxBatchedTokens
    {
      hide FreeOk, RefOk, IndexOk, HashOk, TablesOk, View, DecodePhase, PrefillPhase, AdmitPhase;
      hide SchedulerProgress.ServesInOrder;
      ScheduleWithinBudget(State());
      SchedulerProgress.ScheduleServesInOrder(State());
      ghost var start := State();
      assert Sum(EMPTY_BATCH.chunkSizes) == 0;
      var budget: int := cfg.maxBatchedTokens;
      batch := EMPTY_BATCH;
      batch, budget := ScheduleDecodes(batch, budget);
      ghost var p1 := Pass(State(), batch, budget, false);
      forall id | id in running ensures id in requests {
        RunningOnce(State(), id);
      }
      PrefillPhaseKeeps(p1, running, cfg.maxBatchedTokens, false);
      batch, budget := ContinuePrefills(batch, budget);
      ghost var left, newly;
      batch, left, newly := AdmitWaiting(batch, budget, cfg.maxBatchedTokens, map[]);
    }

    method ScheduleDecodes(batch0: Batch, budget0: nat) returns (batch: Batch, budget: int)
      requires Sound(State()) && PassOk(Pass(State(), batch0, budget0, false), budget0, map[], false)
      modifies this, cache
      ensures DecodePhase(Pass(old(State()), batch0, budget0, false), old(running))
        == Pass(State(), batch, budget, false)
      ensures PassOk(Pass(State(), batch, budget, false), budget0, map[], false)
    {
      hide Sound, WithinBudget, BatchOk, NewlyInBatch, BlockPool.CanAllocate, Preempt, Shape;
      var snapshot := running;
      SoundIsShaped(State());
      ghost var start := Pass(State(), batch0, budget0, false);
      batch, budget := batch0, budget0;
      var i := 0;
      while i < |snapshot|
        invariant i <= |snapshot|
        invariant forall id | id in snapshot :: id in requests
        invariant PassOk(Pass(State(), batch, budget, false), budget0, map[], false)
        invariant Shape(cache.State())
        invariant DecodePhase(start, snapshot) == DecodePhase(Pass(State(), batch, budget, false), snapshot[i..])
      {
        var id := snapshot[i];
        ghost var p := Pass(State(), batch, budget, false);
        assert snapshot[i..][1..] == snapshot[i + 1..];
        i := i + 1;
        if requests[id].PrefillDone() {
          if budget < 1 {
            return;
          }
          var fits := cache.CanAllocate(1, cfg.watermark);
          var schedulable := true;
          if !fits {
            if running == [] {
              return;
            }
            PreemptInKeeps(p, budget0, map[], false);
            var none: map<SeqId, nat> := map[];
            assert none - {running[|running| - 1]} == none;
            var victim := PreemptNewest();
            batch := batch.(preempted := batch.preempted + [victim.value]);
            assert Pass(State(), batch, budget, false) == PreemptIn(p);
            SoundIsShaped(State());
            schedulable := victim.value != id;
          }
          if schedulable {
            DecodingBudget(Pass(State(), batch, budget, false), budget0, id);
            batch := batch.(decode := batch.decode + [id]);
            budget := budget - 1;
          }
        }
      }
    }

    lemma DecodingBudget(p: Pass, limit: nat, id: SeqId)
      requires PassOk(p, limit, map[], false) && p.budget >= 1 && id in p.sched.reqs
      ensures PassOk(Decoding(p, id), limit, map[], false)
    {
      hide Sound;
    }

    method ContinuePrefills(batch0: Batch, budget0: int) returns (batch: Batch, budget: int)
      requires forall id | id in running :: id in requests
      ensures PrefillPhase(Pass(State(), batch0, budget0, false), running) == Pass(State(), batch, budget, false)
    {
      batch, budget := batch0, budget0;
      ghost var start := Pass(State(), batch0, budget0, false);
      for i := 0 to |running|
        invariant PrefillPhase(start, running) == PrefillPhase(Pass(State(), batch, budget, false), running[i..])
      {
        var id := running[i];
        assert running[i..][1..] == running[i + 1..];
        if !requests[id].PrefillDone() && budget > 0 {
          var chunk := PlanChunk(cfg, requests[id], budget);
          if chunk > 0 {
            batch := batch.(prefill := batch.prefill + [id], chunkSizes := batch.chunkSizes[id := chunk]);
            budget := budget - chunk;
          }
        }
      }
    }

    /** Admits from the head of the waiting queue, preempting when the cache is short. */
    method AdmitWaiting(batch0: Batch, budget0: nat, ghost limit: nat, ghost newly0: map<SeqId, nat>)
      returns (batch: Batch, ghost budget: int, ghost newly: map<SeqId, nat>)
      requires PassOk(Pass(State(), batch0, budget0, false), limit, newly0, false)
      modifies this, cache
      ensures AdmitPhase(Pass(old(State()), batch0, budget0, false)) == Pass(State(), batch, budget, false)
      ensures PassOk(Pass(State(), batch, budget, false), limit, newly, false)
    {
      hide FreeOk, RefOk, IndexOk, HashOk, TablesOk, View, Conserved, WaitingReset, HistoriesOk, QueueLimits;
      hide TablesAreRunning;
      hide WithinBudget, BatchOk, NewlyInBatch, Allocate, BlockPool.CanAllocate, Preempt, InPool, Loaded, LengthsOk;
      hide Admitted;
      batch, newly := batch0, newly0;
      var left: int := budget0;
      budget := left;
      ghost var start := Pass(State(), batch0, budget0, false);
      while waiting != [] && left > 0 && |running| < cfg.maxRunning
        invariant budget == left
        invariant PassOk(Pass(State(), batch, left, false), limit, newly, false)
        invariant AdmitPhase(start) == AdmitPhase(Pass(State(), batch, left, false))
        decreases left, |running|
      {
        ghost var p := Pass(State(), batch, left, false);
        var id := waiting[0];
        RunningOnce(State(), id);
        var chunk := PlanChunk(cfg, requests[id], left);
        if chunk <= 0 {
          return;
        }
        var need := if cfg.chunkedPrefill then chunk else |requests[id].prompt|;
        var fits := cache.CanAllocate(need, cfg.watermark);
        if !fits {
          if running == [] {
            return;
          }
          ghost var v := running[|running| - 1];
          batch := PreemptInto(batch, left, limit, newly);
          newly := newly - {v};
        } else {
          AdmissionDelivers(State(), left, chunk);
          AdmitOneKeeps(p, limit, newly, false, chunk);
          AdmitHead(chunk);
          newly := newly[id := chunk];
          batch := batch.(prefill := batch.prefill + [id], chunkSizes := batch.chunkSizes[id := chunk]);
          left := left - chunk;
          budget := left;
        }
      }
    }

    method PreemptInto(batch0: Batch, ghost left: int, ghost limit: nat, ghost newly: map<SeqId, nat>)
      returns (batch: Batch)
      requires running != [] && PassOk(Pass(State(), batch0, left, false), limit, newly, false)
      modifies this, cache
      ensures var p := Pass(old(State()), batch0, left, false);
        && Pass(State(), batch, left, false) == PreemptIn(p)
        && PassOk(PreemptIn(p), limit, newly - {old(running)[|old(running)| - 1]}, false)
    {
      hide FreeOk, RefOk, IndexOk, HashOk, TablesOk, View, Conserved, WaitingReset, HistoriesOk, QueueLimits;
      hide TablesAreRunning;
      hide WithinBudget, BatchOk, NewlyInBatch, Loaded, LengthsOk, Preempt;
      PreemptInKeeps(Pass(State(), batch0, left, false), limit, newly, false);
      var victim := PreemptNewest();
      batch := batch0.(preempted := batch0.preempted + [victim.value]);
    }

    /** Moves the head of the waiting queue into the running batch with its first chunk. */
    method AdmitHead(chunk: nat)
      requires Sound(State()) && waiting != [] && waiting[0] in requests && chunk <= |requests[waiting[0]].prompt|
      requires Allocate(cache.State(), waiting[0], requests[waiting[0]].prompt[..chunk], cfg.watermark).Done?
      modifies this, cache
      ensures var a := Allocate(old(cache.State()), old(waiting)[0],
        old(requests)[old(waiting)[0]].prompt[..chunk], cfg.watermark);
        State() == Admitted(old(State()), a.cache)
    {
      hide FreeOk, RefOk, IndexOk, HashOk, TablesOk, View, Conserved, WaitingReset, HistoriesOk, QueueLimits;
      hide TablesAreRunning, Allocate;
      var id := waiting[0];
      var status := cache.Allocate(id, requests[id].prompt[..chunk], cfg.watermark);
      var cached := if id in cache.tables then cache.tables[id].numCached else 0;
      waiting := waiting[1..];
      running := running + [id];
      requests := requests[id := requests[id].(cachedTokens := cached, state := Prefilling)];
    }

    // ----- completion -----

    method AdvancePrefill(id: SeqId, chunk: nat)
      requires id in requests
      modifies this
      ensures State() == SchedulerModel.AdvancePrefill(old(State()), id, chunk)
    {
      var r := requests[id];
      r := r.(prefillOffset := Min(|r.prompt|, r.prefillOffset + chunk) as nat);
      if r.PrefillDone() {
        r := r.(state := Running);
      }
      requests := requests[id := r];
    }

    /** Records a generated token and grows the cache by it; an exception of the cache escapes
        with the token recorded. */
    method AppendToken(id: SeqId, tok: Token) returns (grown: bool)
      requires cache.Valid() && id in requests
      modifies this, cache
      ensures cache.Valid()
      ensures grown <==> Append(old(cache.State()), id, tok).Done?
      ensures var s1 := Emitted(old(State()), id, tok);
        State() == if grown then s1.(cache := Append(old(cache.State()), id, tok).cache) else s1
    {
      hide Inv, Append, View;
      var r := requests[id];
      requests := requests[id := r.(output := r.output + [tok], generated := r.generated + [tok])];
      var status := cache.AppendToken(id, tok);
      grown := status == PagedKVCache.Ok;
    }

    method Finish(id: SeqId)
      requires cache.Valid() && id in requests
      modifies this, cache
      ensures cache.Valid()
      ensures State() == SchedulerModel.Finish(old(State()), id)
    {
      hide Inv, Free, View;
      if id in running {
        running := Without(running, id);
      } else {
        WithoutAbsent(running, id);
      }
      requests := requests[id := requests[id].(state := Finished)];
      var _ := cache.FreeSequence(id);
      finished := finished + [id];
    }

    lemma {:induction false} WithoutAbsent(q: seq<SeqId>, id: SeqId)
      requires id !in q
      ensures Without(q, id) == q
    {
      if q != [] {
        WithoutAbsent(q[1..], id);
      }
    }
  }
}
