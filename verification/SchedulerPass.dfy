/** A scheduling pass: it terminates within its token budget, never reaches the allocation
    failure it guards against, and keeps scheduler and cache sound. */
module SchedulerPass {
  import opened Prelude
  import opened BlockPool
  import opened BlockPoolInvariant
  import opened BlockPoolAllocate
  import opened SchedulerModel
  import opened SchedulerInvariant
  import opened SchedulerSteps

  // ----- budget arithmetic -----

  lemma {:induction false} SumOf(m: map<SeqId, nat>, k: SeqId)
    requires k in m
    ensures Sum(m) == m[k] + Sum(m - {k})
    decreases |m|
  {
    var p := Pick(m);
    if p != k {
      assert (m - {p}).Keys == m.Keys - {p};
      assert (m - {k}).Keys == m.Keys - {k};
      SumOf(m - {p}, k);
      SumOf(m - {k}, p);
      assert m - {p} - {k} == m - {k} - {p};
    }
  }

  /** Overwriting an entry never makes the sum grow by more than the new value. */
  lemma SumUpdate(m: map<SeqId, nat>, k: SeqId, n: nat)
    ensures Sum(m[k := n]) <= Sum(m) + n
  {
    SumOf(m[k := n], k);
    assert m[k := n] - {k} == m - {k};
    if k in m {
      SumOf(m, k);
    } else {
      assert m - {k} == m;
    }
  }

  lemma FillingBudget(p: Pass, limit: nat, id: SeqId, chunk: nat)
    requires WithinBudget(p, limit) && chunk <= p.budget
    ensures WithinBudget(Filling(p, id, chunk), limit)
  {
    SumUpdate(p.batch.chunkSizes, id, chunk);
  }

  // ----- the steps of a pass -----

  lemma SoundIsShaped(s: Sched)
    requires Sound(s)
    ensures Shape(s.cache) && forall id | id in s.running :: id in s.reqs
  {
    forall id | id in s.running ensures id in s.reqs {
      RunningOnce(s, id);
    }
  }

  function PreemptIn(p: Pass): Pass
    requires Shape(p.sched.cache) && p.sched.running != []
  {
    var v := p.sched.running[|p.sched.running| - 1];
    p.(sched := Preempt(p.sched), batch := p.batch.(preempted := p.batch.preempted + [v]))
  }

  lemma PreemptInKeeps(p: Pass, limit: nat, newly: map<SeqId, nat>, normal: bool)
    requires PassOk(p, limit, newly, normal) && p.sched.running != []
    ensures PassOk(PreemptIn(p), limit, newly - {p.sched.running[|p.sched.running| - 1]}, normal)
    ensures PreemptIn(p).sched.reqs.Keys == p.sched.reqs.Keys
  {
    var s := p.sched;
    var v := s.running[|s.running| - 1];
    PreemptKeeps(s);
    PreemptEvicts(s);
    RunningOnce(s, v);
    if normal {
      EvictLoaded(s, Preempt(s), v, newly);
      EvictLengths(s, Preempt(s), v);
    }
  }

  lemma {:induction false} DecodePhaseKeeps(p: Pass, snapshot: seq<SeqId>, limit: nat, normal: bool)
    requires PassOk(p, limit, map[], normal)
    requires forall id | id in snapshot :: id in p.sched.reqs
    ensures PassOk(DecodePhase(p, snapshot), limit, map[], normal)
    decreases |snapshot|
  {
    hide FreeOk, RefOk, IndexOk, HashOk, TablesOk, Conserved, WaitingReset, HistoriesOk, QueueLimits, CanAllocate;
    hide Preempt, Loaded, LengthsOk;
    if snapshot != [] {
      var id := snapshot[0];
      var s := p.sched;
      if Req(s, id).PrefillDone() && p.budget >= 1 {
        if CanAllocate(s.cache, 1, s.cfg.watermark) {
          DecodePhaseKeeps(Decoding(p, id), snapshot[1..], limit, normal);
        } else if s.running != [] {
          PreemptInKeeps(p, limit, map[], normal);
          var v := s.running[|s.running| - 1];
          var none: map<SeqId, nat> := map[];
          assert none - {v} == none;
          DecodePhaseKeeps(if v == id then PreemptIn(p) else Decoding(PreemptIn(p), id), snapshot[1..], limit, normal);
        }
      } else if !Req(s, id).PrefillDone() {
        DecodePhaseKeeps(p, snapshot[1..], limit, normal);
      }
    }
  }

  lemma {:induction false} PrefillPhaseKeeps(p: Pass, snapshot: seq<SeqId>, limit: nat, normal: bool)
    requires PassOk(p, limit, map[], normal)
    requires forall id | id in snapshot :: id in p.sched.reqs
    ensures PassOk(PrefillPhase(p, snapshot), limit, map[], normal)
    decreases |snapshot|
  {
    if snapshot != [] {
      var id := snapshot[0];
      var r := Req(p.sched, id);
      var chunk := PlanChunk(p.sched.cfg, r, p.budget);
      if r.PrefillDone() || p.budget <= 0 || chunk <= 0 {
        PrefillPhaseKeeps(p, snapshot[1..], limit, normal);
      } else {
        FillingBudget(p, limit, id, chunk);
        PrefillPhaseKeeps(Filling(p, id, chunk), snapshot[1..], limit, normal);
      }
    }
  }

  // ----- admission -----

  /** The head of the queue has been planned a chunk, and the cache accepts it. */
  ghost predicate CanAdmit(s: Sched, budget: int, chunk: int) {
    && Sound(s) && s.waiting != [] && |s.running| < s.cfg.maxRunning
    && 0 < chunk == PlanChunk(s.cfg, Req(s, s.waiting[0]), budget) <= budget
    && CanAllocate(s.cache, if s.cfg.chunkedPrefill then chunk else |Req(s, s.waiting[0]).prompt|, s.cfg.watermark)
  }

  /** The handler for a failed allocation is never reached: what `can_allocate` accepted
      for the head of the queue, `allocate` delivers. */
  lemma AdmissionDelivers(s: Sched, budget: int, chunk: int)
    requires CanAdmit(s, budget, chunk)
    ensures var id := s.waiting[0];
      var r := Req(s, id);
      && chunk <= |r.prompt| && id !in View(s.cache)
      && var a := Allocate(s.cache, id, r.prompt[..Min(chunk, |r.prompt|)], s.cfg.watermark);
      && a.Done? && Inv(a.cache) && Limits(s.cache, a.cache)
      && View(a.cache) == View(s.cache)[id := r.prompt[..chunk]]
  {
    var id := s.waiting[0];
    var r := Req(s, id);
    RunningOnce(s, id);
    AllocateKeeps(s.cache, id, r.prompt[..chunk], s.cfg.watermark);
  }

  lemma AdmittedConserves(s: Sched, cache: Cache)
    requires Conserved(s) && s.waiting != []
    ensures Conserved(Admitted(s, cache))
  {
    var s' := Admitted(s, cache);
    RunningOnce(s, s.waiting[0]);
    assert s.waiting == [s.waiting[0]] + s.waiting[1..];
    forall id ensures Places(s', id) == if id in s'.reqs then 1 else 0 {
      assert Places(s, id) == if id in s.reqs then 1 else 0;
    }
  }

  lemma AdmittedTables(s: Sched, cache: Cache, toks: seq<Token>)
    requires TablesAreRunning(s) && s.waiting != []
    requires View(cache) == View(s.cache)[s.waiting[0] := toks]
    ensures TablesAreRunning(Admitted(s, cache))
  {
    var s' := Admitted(s, cache);
    forall id: SeqId ensures id in View(s'.cache) <==> id in s'.running {
      assert id in View(s.cache) <==> id in s.running;
    }
  }

  lemma AdmittedQueues(s: Sched, cache: Cache)
    requires Conserved(s) && WaitingReset(s) && HistoriesOk(s) && QueueLimits(s)
    requires s.waiting != [] && |s.running| < s.cfg.maxRunning
    ensures var s' := Admitted(s, cache);
      WaitingReset(s') && HistoriesOk(s') && QueueLimits(s')
  {
    RunningOnce(s, s.waiting[0]);
    var s' := Admitted(s, cache);
    forall id | id in s'.waiting ensures Req(s', id).prefillOffset == 0 && Req(s', id).output == [] {
      assert id in s.waiting;
    }
    forall id | id in s'.reqs ensures HistoryOk(s'.reqs[id]) {
      assert HistoryOk(s.reqs[id]);
    }
  }

  lemma AdmittedSound(s: Sched, cache: Cache, toks: seq<Token>)
    requires Sound(s) && s.waiting != [] && |s.running| < s.cfg.maxRunning
    requires Inv(cache) && Limits(s.cache, cache) && View(cache) == View(s.cache)[s.waiting[0] := toks]
    ensures Sound(Admitted(s, cache))
  {
    AdmittedConserves(s, cache);
    AdmittedTables(s, cache, toks);
    AdmittedQueues(s, cache);
  }

  /** Only the head of the queue is touched by its admission. */
  lemma AdmittedLoaded(s: Sched, cache: Cache, chunk: nat, newly: map<SeqId, nat>)
    requires s.waiting != [] && s.waiting[0] !in s.running
    requires Loaded(s, newly)
    requires var r := Req(s, s.waiting[0]);
      && 0 < chunk <= |r.prompt| && r.prefillOffset == 0 && r.output == []
      && View(cache) == View(s.cache)[s.waiting[0] := r.prompt[..chunk]]
    ensures Loaded(Admitted(s, cache), newly[s.waiting[0] := chunk])
  {
    var s' := Admitted(s, cache);
    var h := s.waiting[0];
    forall id | id in s'.running
      ensures if id in newly[h := chunk] then JustAdmitted(s', id, newly[h := chunk][id]) else InStep(s', id)
    {
      if id != h {
        assert id in s.running && Req(s', id) == Req(s, id) && View(cache)[id] == View(s.cache)[id];
      }
    }
  }

  lemma AdmittedLengths(s: Sched, cache: Cache)
    requires LengthsOk(s) && s.waiting != [] && s.waiting[0] in s.reqs
    requires Req(s, s.waiting[0]).output == [] && Req(s, s.waiting[0]).maxTokens >= 1
    ensures LengthsOk(Admitted(s, cache))
  {
    var s' := Admitted(s, cache);
    forall id | id in s'.reqs ensures Bounded(s'.reqs[id]) {
      assert Bounded(s.reqs[id]);
    }
  }

  lemma AdmitOneKeeps(p: Pass, limit: nat, newly: map<SeqId, nat>, normal: bool, chunk: nat)
    requires PassOk(p, limit, newly, normal) && CanAdmit(p.sched, p.budget, chunk)
    ensures var s, id := p.sched, p.sched.waiting[0];
      var a := Allocate(s.cache, id, Req(s, id).prompt[..Min(chunk, |Req(s, id).prompt|)], s.cfg.watermark);
      && a.Done?
      && PassOk(Filling(p.(sched := Admitted(s, a.cache)), id, chunk), limit, newly[id := chunk], normal)
  {
    hide FreeOk, RefOk, IndexOk, HashOk, TablesOk, View, CanAllocate, Allocate, Loaded, LengthsOk, Conserved;
    var s, id := p.sched, p.sched.waiting[0];
    AdmissionDelivers(s, p.budget, chunk);
    RunningOnce(s, id);
    var cache := Allocate(s.cache, id, Req(s, id).prompt[..Min(chunk, |Req(s, id).prompt|)], s.cfg.watermark).cache;
    AdmittedSound(s, cache, Req(s, id).prompt[..chunk]);
    FillingBudget(p, limit, id, chunk);
    if normal {
      AdmittedLoaded(s, cache, chunk, newly);
      AdmittedLengths(s, cache);
    }
  }

  lemma {:induction false} AdmitPhaseKeeps(p: Pass, limit: nat, newly: map<SeqId, nat>, normal: bool)
    returns (newly': map<SeqId, nat>)
    requires PassOk(p, limit, newly, normal)
    ensures PassOk(AdmitPhase(p), limit, newly', normal)
    decreases p.budget, |p.sched.running|
  {
    hide Sound, WithinBudget, BatchOk, NewlyInBatch, CanAllocate, Allocate, Preempt, Loaded, LengthsOk, Shape;
    var s := p.sched;
    SoundIsShaped(s);
    newly' := newly;
    if s.waiting != [] && p.budget > 0 && |s.running| < s.cfg.maxRunning {
      var id := s.waiting[0];
      var r := Req(s, id);
      var chunk := PlanChunk(s.cfg, r, p.budget);
      if chunk > 0 {
        if CanAllocate(s.cache, if s.cfg.chunkedPrefill then chunk else |r.prompt|, s.cfg.watermark) {
          AdmitOneKeeps(p, limit, newly, normal, chunk);
          var cache := Allocate(s.cache, id, r.prompt[..Min(chunk, |r.prompt|)], s.cfg.watermark).cache;
          newly' := AdmitPhaseKeeps(Filling(p.(sched := Admitted(s, cache)), id, chunk), limit,
            newly[id := chunk], normal);
        } else if s.running != [] {
          PreemptInKeeps(p, limit, newly, normal);
          newly' := AdmitPhaseKeeps(PreemptIn(p), limit, newly - {s.running[|s.running| - 1]}, normal);
        }
      }
    }
  }

  /** A pass over a sound state ends within its token budget in a sound state, and no
      exception escapes from it. When the state was settled too, every running request is
      afterwards either in step with the cache or scheduled with the chunk it was admitted with. */
  lemma ScheduleKeeps(s: Sched, normal: bool) returns (newly: map<SeqId, nat>)
    requires Sound(s) && (normal ==> Settled(s) && LengthsOk(s))
    ensures PassOk(Schedule(s), s.cfg.maxBatchedTokens, newly, normal)
  {
    var limit := s.cfg.maxBatchedTokens;
    var p0 := Pass(s, EMPTY_BATCH, limit, false);
    forall id | id in s.running ensures id in s.reqs {
      RunningOnce(s, id);
    }
    assert Sum(EMPTY_BATCH.chunkSizes) == 0;
    DecodePhaseKeeps(p0, s.running, limit, normal);
    var p1 := DecodePhase(p0, s.running);
    forall id | id in p1.sched.running ensures id in p1.sched.reqs {
      RunningOnce(p1.sched, id);
    }
    PrefillPhaseKeeps(p1, p1.sched.running, limit, normal);
    newly := AdmitPhaseKeeps(PrefillPhase(p1, p1.sched.running), limit, map[], normal);
  }

  /** The budget theorem on its own terms: decodes and chunk sizes together stay within
      max_batched_tokens, even when a victim is readmitted and its entry overwritten. */
  lemma ScheduleWithinBudget(s: Sched)
    requires Sound(s)
    ensures var b := Schedule(s).batch;
      |b.decode| + Sum(b.chunkSizes) <= s.cfg.maxBatchedTokens && !Schedule(s).raised
  {
    var newly := ScheduleKeeps(s, false);
  }
}
