/** A pool with room for a whole token budget: no pass over it makes anybody give way. */
module SchedulerRoom {
  import opened Prelude
  import opened BlockPool
  import opened BlockPoolInvariant
  import opened BlockPoolReuse
  import opened SchedulerModel
  import opened SchedulerInvariant
  import opened SchedulerPass
  import opened SchedulerProgress

  // ----- a pool with room -----

  /** Every token of the budget could have a block of its own, over the reserve. */
  ghost predicate Roomy(s: Sched, budget: int, reserve: int) {
    && s.cache.blockSize > 0 && IsReserve(s.cache, s.cfg.watermark, reserve)
    && |Unnamed(s.cache)| - budget >= reserve
  }

  lemma RoomFor(s: Sched, n: int, budget: int, reserve: int)
    requires Inv(s.cache) && Roomy(s, budget, reserve) && 0 < n <= budget
    ensures CanAllocate(s.cache, n, s.cfg.watermark)
  {
    hide Inv, Unnamed, CanAllocate, IsNeed;
    var need := CeilDiv(n, s.cache.blockSize);
    NeedExists(n, s.cache.blockSize);
    AdmitsExactly(s.cache, n, s.cfg.watermark, need, reserve);
  }

  lemma NeedExists(n: int, blockSize: nat)
    requires blockSize > 0 && n > 0
    ensures var need := CeilDiv(n, blockSize); IsNeed(n, blockSize, need) && 0 < need <= n
  {
    var need := CeilDiv(n, blockSize);
    CeilDivIsNeed(n, blockSize);
    BelowProduct(need - 1, blockSize, n);
  }

  lemma BelowProduct(q: int, b: nat, n: int)
    requires q * b < n && b > 0 && n > 0
    ensures q < n
  {
    assert q * b == q * (b - 1) + q;
    assert q >= 0 ==> q * (b - 1) >= 0;
  }

  lemma {:induction false} DecodesInRoom(p: Pass, snapshot: seq<SeqId>)
    requires Shape(p.sched.cache) && CanAllocate(p.sched.cache, 1, p.sched.cfg.watermark)
    ensures var p' := DecodePhase(p, snapshot);
      p'.sched == p.sched && p'.batch.preempted == p.batch.preempted && p'.budget <= p.budget
    decreases |snapshot|
  {
    hide CanAllocate;
    if snapshot != [] {
      var id := snapshot[0];
      if !Req(p.sched, id).PrefillDone() {
        DecodesInRoom(p, snapshot[1..]);
      } else if p.budget >= 1 {
        DecodesInRoom(Decoding(p, id), snapshot[1..]);
      }
    }
  }

  lemma TakesAtMost(c: Cache, id: SeqId, toks: seq<Token>, watermark: real)
    requires Inv(c) && Allocate(c, id, toks, watermark).Done? && toks != []
    ensures |Unnamed(Allocate(c, id, toks, watermark).cache)| >= |Unnamed(c)| - |toks|
  {
    hide FreeOk, RefOk, IndexOk, HashOk, TablesOk, Unnamed, CanAllocate, IsNeed, Allocate;
    NeedExists(|toks|, c.blockSize);
    AllocateTakes(c, id, toks, watermark, CeilDiv(|toks|, c.blockSize));
  }

  lemma SameLimitsRoomy(s: Sched, s': Sched, budget: int, chunk: nat, reserve: int)
    requires Roomy(s, budget, reserve) && s'.cfg == s.cfg && Limits(s.cache, s'.cache)
    requires |Unnamed(s'.cache)| >= |Unnamed(s.cache)| - chunk
    ensures Roomy(s', budget - chunk, reserve)
  {
    hide Unnamed;
  }

  /** What an admission leaves of the pool is as roomy for what it leaves of the budget. */
  lemma StaysRoomy(s: Sched, budget: int, chunk: nat, reserve: int)
    requires CanAdmit(s, budget, chunk) && Roomy(s, budget, reserve)
    ensures var id := s.waiting[0];
      var a := Allocate(s.cache, id, Req(s, id).prompt[..Min(chunk, |Req(s, id).prompt|)], s.cfg.watermark);
      a.Done? && Roomy(Admitted(s, a.cache), budget - chunk, reserve)
  {
    AdmissionDelivers(s, budget, chunk);
    InOfSound(s);
    hide Sound, Inv, Unnamed, CanAllocate, Allocate, PlanChunk, View, Roomy, Shape;
    var id := s.waiting[0];
    var toks := Req(s, id).prompt[..Min(chunk, |Req(s, id).prompt|)];
    TakesAtMost(s.cache, id, toks, s.cfg.watermark);
    SameLimitsRoomy(s, Admitted(s, Allocate(s.cache, id, toks, s.cfg.watermark).cache), budget, chunk, reserve);
  }

  lemma InOfSound(s: Sched)
    requires Sound(s)
    ensures Inv(s.cache) && Shape(s.cache)
  {
  }

  lemma {:induction false} AdmitsInRoom(p: Pass, limit: nat, newly: map<SeqId, nat>, reserve: int)
    requires PassOk(p, limit, newly, false) && Roomy(p.sched, p.budget, reserve)
    ensures Shape(p.sched.cache) && AdmitPhase(p).batch.preempted == p.batch.preempted
    decreases p.budget
  {
    hide Sound, WithinBudget, BatchOk, NewlyInBatch, CanAllocate, Allocate, Preempt, Roomy, Loaded, LengthsOk;
    var s := p.sched;
    InOfSound(s);
    if s.waiting != [] && p.budget > 0 && |s.running| < s.cfg.maxRunning {
      var id := s.waiting[0];
      var r := Req(s, id);
      var chunk := PlanChunk(s.cfg, r, p.budget);
      WaitingIsReset(s);
      if chunk > 0 {
        RoomFor(s, if s.cfg.chunkedPrefill then chunk else |r.prompt|, p.budget, reserve);
        AdmitOneKeeps(p, limit, newly, false, chunk);
        StaysRoomy(s, p.budget, chunk, reserve);
        var cache := Allocate(s.cache, id, r.prompt[..Min(chunk, |r.prompt|)], s.cfg.watermark).cache;
        AdmitsInRoom(Filling(p.(sched := Admitted(s, cache)), id, chunk), limit, newly[id := chunk], reserve);
      }
    }
  }

  lemma WaitingIsReset(s: Sched)
    requires Sound(s)
    ensures forall id | id in s.waiting :: Req(s, id).prefillOffset == 0
  {
  }

  /** Nobody gives way in a pass over a pool in which no sequence names a budget's worth of blocks over the
      reserve. */
  lemma RoomyPassPreemptsNobody(s: Sched, reserve: int)
    requires Sound(s) && Roomy(s, s.cfg.maxBatchedTokens, reserve)
    ensures Schedule(s).batch.preempted == []
  {
    hide PassOk, Sound, CanAllocate, Roomy, AdmitPhase;
    InOfSound(s);
    StartsOk(s);
    var limit := s.cfg.maxBatchedTokens;
    var p0 := Pass(s, EMPTY_BATCH, limit, false);
    SoundIsShaped(s);
    DecodePhaseKeeps(p0, s.running, limit, false);
    var p := DecodePhase(p0, s.running);
    if limit > 0 {
      RoomFor(s, 1, limit, reserve);
      DecodesInRoom(p0, s.running);
    } else {
      NoBudgetNoDecodes(p0, s.running);
    }
    PrefillsKeep(p, limit);
    var q := PrefillPhase(p, p.sched.running);
    PrefillsOnlyFill(p, p.sched.running);
    SameRoom(s, limit, q.budget, reserve);
    AdmitsInRoom(q, limit, map[], reserve);
  }

  lemma SameRoom(s: Sched, budget: int, budget': int, reserve: int)
    requires Roomy(s, budget, reserve) && budget' <= budget
    ensures Roomy(s, budget', reserve)
  {
  }

  lemma {:induction false} NoBudgetNoDecodes(p: Pass, snapshot: seq<SeqId>)
    requires Shape(p.sched.cache) && p.budget < 1
    ensures DecodePhase(p, snapshot) == p
    decreases |snapshot|
  {
    if snapshot != [] && !Req(p.sched, snapshot[0]).PrefillDone() {
      NoBudgetNoDecodes(p, snapshot[1..]);
    }
  }

  lemma {:induction false} PrefillsOnlyFill(p: Pass, ids: seq<SeqId>)
    ensures PrefillPhase(p, ids).batch.preempted == p.batch.preempted && PrefillPhase(p, ids).budget <= p.budget
    decreases |ids|
  {
    if ids != [] {
      var chunk := PlanChunk(p.sched.cfg, Req(p.sched, ids[0]), p.budget);
      PrefillsOnlyFill(if Req(p.sched, ids[0]).PrefillDone() || p.budget <= 0 || chunk <= 0 then p
                       else Filling(p, ids[0], chunk), ids[1..]);
    }
  }
}
