/** What a step does with a request that its pass admitted, preempted and admitted again: it stands
    twice in the batch, is prefilled twice and may be served twice. */
module SchedulerRepeats {
  import opened Prelude
  import opened BlockPool
  import opened BlockPoolInvariant
  import opened SchedulerModel
  import opened SchedulerInvariant
  import opened SchedulerPass
  import opened SchedulerEngine

  /** How often an id stands in a list. */
  function Occurrences(ids: seq<SeqId>, id: SeqId): nat {
    if ids == [] then 0 else (if ids[0] == id then 1 else 0) + Occurrences(ids[1..], id)
  }

  lemma {:induction false} OccursIn(ids: seq<SeqId>, id: SeqId)
    ensures id in ids <==> Occurrences(ids, id) > 0
  {
    if ids != [] {
      OccursIn(ids[1..], id);
    }
  }

  ghost predicate Repeats(ids: seq<SeqId>, id: SeqId) {
    Occurrences(ids, id) > 1
  }

  // ----- what the prefill loop advances -----

  /** The offset of a request after so many prefills of one chunk. */
  function Advanced(r: Request, chunk: nat, times: nat): int {
    Min(|r.prompt|, r.prefillOffset + Product(chunk, times))
  }

  lemma OneAdvanced(s: Sched, id: SeqId, chunk: nat, other: SeqId)
    requires Shape(s.cache) && PrefillOne(s, id, chunk).Returned?
    ensures var r, r1 := Req(s, other), Req(PrefillOne(s, id, chunk).sched, other);
      && r1.prompt == r.prompt
      && r1.prefillOffset as int == (if id == other then Advanced(r, chunk, 1) else r.prefillOffset)
  {
    hide CoverPrompt;
    var r := Req(s, id);
    CoverOnlyCache(s, id, r.prefillOffset, Min(|r.prompt|, r.prefillOffset + chunk));
    ProductNext(chunk, 0);
  }

  lemma {:induction false} AllAdvanced(s: Sched, ids: seq<SeqId>, chunkSizes: map<SeqId, nat>, id: SeqId)
    requires Shape(s.cache) && PrefillAll(s, ids, chunkSizes).Returned? && id in chunkSizes
    requires Req(s, id).prefillOffset <= |Req(s, id).prompt|
    ensures var r, r1 := Req(s, id), Req(PrefillAll(s, ids, chunkSizes).sched, id);
      r1.prompt == r.prompt && r1.prefillOffset as int == Advanced(r, chunkSizes[id], Occurrences(ids, id))
    decreases |ids|
  {
    hide PrefillOne, Product;
    ProductNext(chunkSizes[id], 0);
    if ids != [] {
      var chunk := if ids[0] in chunkSizes then chunkSizes[ids[0]] else 0;
      OneAdvanced(s, ids[0], chunk, id);
      AllAdvanced(PrefillOne(s, ids[0], chunk).sched, ids[1..], chunkSizes, id);
      ProductNext(chunkSizes[id], Occurrences(ids[1..], id));
      ProductGrows(chunkSizes[id], 0, Occurrences(ids[1..], id));
    }
  }

  // ----- the budget -----

  /** Every chunk of the batch fits in what is left of its prompt, and belongs to the batch. */
  ghost predicate ChunksFit(s: Sched, b: Batch) {
    && (forall id :: id in b.prefill <==> id in b.chunkSizes)
    && (forall id | id in b.chunkSizes :: Req(s, id).prefillOffset + b.chunkSizes[id] <= |Req(s, id).prompt|)
  }

  /** The prompt tokens that the prefill loop executes. */
  ghost function Executed(s: Sched, s1: Sched, chunkSizes: map<SeqId, nat>): map<SeqId, nat> {
    map id | id in chunkSizes :: Gained(Req(s, id), Req(s1, id))
  }

  function Gained(r: Request, r1: Request): nat {
    if r1.prefillOffset >= r.prefillOffset then r1.prefillOffset - r.prefillOffset else 0
  }

  lemma {:induction false} SumAtLeast(a: map<SeqId, nat>, b: map<SeqId, nat>)
    requires a.Keys == b.Keys && forall k | k in a :: a[k] <= b[k]
    ensures Sum(a) <= Sum(b)
    ensures Sum(b) <= Sum(a) <==> a == b
    decreases |a|
  {
    if a == map[] {
      assert b == map[];
    } else {
      var k := Pick(a);
      SumOf(a, k);
      SumOf(b, k);
      assert (a - {k}).Keys == a.Keys - {k} && (b - {k}).Keys == b.Keys - {k};
      SumAtLeast(a - {k}, b - {k});
      if a - {k} == b - {k} && a[k] == b[k] {
        assert a == (a - {k})[k := a[k]] && b == (b - {k})[k := b[k]];
      }
    }
  }

  /** Of the ids that stand in the batch more than once, each is done with one chunk. */
  ghost predicate RepeatsAreDone(s: Sched, b: Batch) {
    forall id | id in b.chunkSizes && Repeats(b.prefill, id) ::
      Req(s, id).prefillOffset + b.chunkSizes[id] == |Req(s, id).prompt|
  }

  lemma GainIs(r: Request, r1: Request, chunk: nat, times: nat)
    requires times > 0 && chunk > 0 && r.prefillOffset + chunk <= |r.prompt|
    requires r1.prefillOffset as int == Advanced(r, chunk, times)
    ensures Gained(r, r1) >= chunk
    ensures Gained(r, r1) == chunk <==> times > 1 ==> r.prefillOffset + chunk == |r.prompt|
  {
    ProductNext(chunk, 0);
    ProductGrows(chunk, 1, times);
    if times > 1 {
      ProductNext(chunk, 1);
      ProductGrows(chunk, 2, times);
    }
  }

  /** The prefill loop executes at least the tokens that were scheduled, and no more exactly when
      every id that stands in the batch more than once is done with one chunk. */
  lemma ExecutesScheduled(s: Sched, b: Batch)
    requires Shape(s.cache) && ChunksFit(s, b) && BatchOk(s, b)
    requires PrefillAll(s, b.prefill, b.chunkSizes).Returned?
    ensures var s1 := PrefillAll(s, b.prefill, b.chunkSizes).sched;
      && Sum(Executed(s, s1, b.chunkSizes)) >= Sum(b.chunkSizes)
      && (Sum(Executed(s, s1, b.chunkSizes)) <= Sum(b.chunkSizes) <==> RepeatsAreDone(s, b))
  {
    hide PrefillAll, Gained;
    var s1 := PrefillAll(s, b.prefill, b.chunkSizes).sched;
    var executed := Executed(s, s1, b.chunkSizes);
    forall id | id in b.chunkSizes
      ensures executed[id] >= b.chunkSizes[id]
      ensures executed[id] == b.chunkSizes[id] <==>
        (Repeats(b.prefill, id) ==> Req(s, id).prefillOffset + b.chunkSizes[id] == |Req(s, id).prompt|)
    {
      AllAdvanced(s, b.prefill, b.chunkSizes, id);
      OccursIn(b.prefill, id);
      GainIs(Req(s, id), Req(s1, id), b.chunkSizes[id], Occurrences(b.prefill, id));
    }
    SumAtLeast(b.chunkSizes, executed);
    if RepeatsAreDone(s, b) {
      forall id | id in b.chunkSizes ensures executed[id] == b.chunkSizes[id] {
      }
    }
  }

  // ----- serving -----

  /** The requests a step serves, in order. */
  function Served(s1: Sched, b: Batch): seq<SeqId> {
    Ready(s1, b.decode, []) + Ready(s1, b.prefill, b.decode)
  }

  /** No id that stands in the batch more than once is ready, unless it is decoded anyway. */
  ghost predicate RepeatsAreUnready(s1: Sched, b: Batch) {
    forall id | Repeats(b.prefill, id) :: Req(s1, id).PrefillDone() ==> id in b.decode
  }

  lemma {:induction false} ReadyOccurs(s: Sched, ids: seq<SeqId>, except: seq<SeqId>, id: SeqId)
    ensures Occurrences(Ready(s, ids, except), id)
         == if Req(s, id).PrefillDone() && id !in except then Occurrences(ids, id) else 0
  {
    if ids != [] {
      ReadyOccurs(s, ids[1..], except, id);
      var rest := Ready(s, ids[1..], except);
      assert ([ids[0]] + rest)[1..] == rest;
    }
  }

  lemma {:induction false} OccursInBoth(a: seq<SeqId>, b: seq<SeqId>, id: SeqId)
    ensures Occurrences(a + b, id) == Occurrences(a, id) + Occurrences(b, id)
  {
    if a == [] {
      assert a + b == b;
    } else {
      assert (a + b)[1..] == a[1..] + b;
      OccursInBoth(a[1..], b, id);
    }
  }

  lemma NoDupFirst(ids: seq<SeqId>)
    requires ids != []
    ensures NoDup(ids) <==> NoDup(ids[1..]) && ids[0] !in ids[1..]
  {
    var rest := ids[1..];
    assert forall i :: 0 <= i < |rest| ==> rest[i] == ids[i + 1];
    assert forall i :: 0 < i < |ids| ==> ids[i] == rest[i - 1];
  }

  ghost predicate AtMostOnce(ids: seq<SeqId>) {
    forall id :: Occurrences(ids, id) <= 1
  }

  lemma {:induction false} NoDupOccurs(ids: seq<SeqId>)
    ensures NoDup(ids) <==> AtMostOnce(ids)
  {
    if ids != [] {
      var rest := ids[1..];
      NoDupFirst(ids);
      NoDupOccurs(rest);
      OccursIn(rest, ids[0]);
      if AtMostOnce(rest) && ids[0] !in rest {
        forall id ensures Occurrences(ids, id) <= 1 {
          assert Occurrences(rest, id) <= 1;
        }
      }
      if AtMostOnce(ids) {
        assert Occurrences(ids, ids[0]) <= 1;
        forall id ensures Occurrences(rest, id) <= 1 {
          assert Occurrences(ids, id) <= 1;
        }
      }
    }
  }

  /** Each request is served at most once exactly when no id that stands in the batch more than once
      is ready, but for those that are decoded. */
  lemma ServesOnce(s1: Sched, b: Batch)
    requires NoDup(b.decode)
    ensures NoDup(Served(s1, b)) <==> RepeatsAreUnready(s1, b)
  {
    hide Ready, Occurrences;
    NoDupOccurs(Served(s1, b));
    if RepeatsAreUnready(s1, b) {
      forall id ensures Occurrences(Served(s1, b), id) <= 1 {
        ServedOccurs(s1, b, id);
      }
    }
    if AtMostOnce(Served(s1, b)) {
      forall id | Repeats(b.prefill, id) ensures Req(s1, id).PrefillDone() ==> id in b.decode {
        ServedOccurs(s1, b, id);
        assert Occurrences(Served(s1, b), id) <= 1;
      }
    }
  }

  lemma ServedOccurs(s1: Sched, b: Batch, id: SeqId)
    requires NoDup(b.decode)
    ensures Occurrences(Served(s1, b), id) <= 1 <==>
      (Repeats(b.prefill, id) && Req(s1, id).PrefillDone() ==> id in b.decode)
  {
    hide Ready;
    OccursInBoth(Ready(s1, b.decode, []), Ready(s1, b.prefill, b.decode), id);
    ReadyOccurs(s1, b.decode, [], id);
    ReadyOccurs(s1, b.prefill, b.decode, id);
    OccursIn(b.decode, id);
    NoDupOccurs(b.decode);
    assert Occurrences(b.decode, id) <= 1;
  }

  // ----- the batches that a pass builds -----

  ghost predicate PassFits(p: Pass) {
    ChunksFit(p.sched, p.batch)
  }

  lemma PreemptFits(p: Pass)
    requires Shape(p.sched.cache) && p.sched.running != [] && PassFits(p)
    ensures PassFits(PreemptIn(p))
  {
    hide Free;
  }

  lemma {:induction false} DecodePhaseFits(p: Pass, snapshot: seq<SeqId>)
    requires Shape(p.sched.cache) && PassFits(p) && NoDup(p.batch.decode + snapshot)
    ensures PassFits(DecodePhase(p, snapshot)) && NoDup(DecodePhase(p, snapshot).batch.decode)
    decreases |snapshot|
  {
    hide CanAllocate, Preempt, ChunksFit, InPool;
    DecodeLater(p.batch.decode, snapshot);
    if snapshot != [] {
      var id := snapshot[0];
      var s := p.sched;
      if !Req(s, id).PrefillDone() {
        DecodePhaseFits(p, snapshot[1..]);
      } else if p.budget >= 1 {
        if CanAllocate(s.cache, 1, s.cfg.watermark) {
          SameFits(p, Decoding(p, id));
          DecodePhaseFits(Decoding(p, id), snapshot[1..]);
        } else if s.running != [] {
          PreemptFits(p);
          var v := s.running[|s.running| - 1];
          SameFits(PreemptIn(p), Decoding(PreemptIn(p), id));
          DecodePhaseFits(if v == id then PreemptIn(p) else Decoding(PreemptIn(p), id), snapshot[1..]);
        }
      }
    }
  }

  lemma SameFits(p: Pass, p1: Pass)
    requires PassFits(p) && p1.sched == p.sched
    requires p1.batch.prefill == p.batch.prefill && p1.batch.chunkSizes == p.batch.chunkSizes
    ensures PassFits(p1)
  {
  }

  lemma DecodeLater(decode: seq<SeqId>, snapshot: seq<SeqId>)
    requires NoDup(decode + snapshot)
    ensures NoDup(decode)
    ensures snapshot != [] ==> NoDup(decode + snapshot[1..]) && NoDup(decode + [snapshot[0]] + snapshot[1..])
  {
    var all, n := decode + snapshot, |decode|;
    assert forall i :: 0 <= i < n ==> decode[i] == all[i];
    if snapshot != [] {
      var rest := decode + snapshot[1..];
      assert forall i :: 0 <= i < |rest| ==> rest[i] == all[if i < n then i else i + 1];
      assert decode + [snapshot[0]] + snapshot[1..] == all;
    }
  }

  lemma FillingFits(p: Pass, id: SeqId, chunk: nat)
    requires PassFits(p) && Req(p.sched, id).prefillOffset + chunk <= |Req(p.sched, id).prompt|
    ensures PassFits(Filling(p, id, chunk))
  {
  }

  lemma PlanFits(cfg: Config, r: Request, budget: int)
    ensures PlanChunk(cfg, r, budget) > 0 ==> r.prefillOffset + PlanChunk(cfg, r, budget) <= |r.prompt|
  {
  }

  lemma {:induction false} PrefillPhaseFits(p: Pass, snapshot: seq<SeqId>)
    requires PassFits(p)
    ensures PassFits(PrefillPhase(p, snapshot)) && PrefillPhase(p, snapshot).batch.decode == p.batch.decode
    decreases |snapshot|
  {
    hide PassFits, PlanChunk;
    if snapshot != [] {
      var id := snapshot[0];
      var chunk := PlanChunk(p.sched.cfg, Req(p.sched, id), p.budget);
      PlanFits(p.sched.cfg, Req(p.sched, id), p.budget);
      if Req(p.sched, id).PrefillDone() || p.budget <= 0 || chunk <= 0 {
        PrefillPhaseFits(p, snapshot[1..]);
      } else {
        FillingFits(p, id, chunk);
        PrefillPhaseFits(Filling(p, id, chunk), snapshot[1..]);
      }
    }
  }

  lemma AdmittedFits(p: Pass, cache: Cache)
    requires PassFits(p) && p.sched.waiting != []
    ensures PassFits(p.(sched := Admitted(p.sched, cache)))
    ensures Admitted(p.sched, cache).cache == cache
    ensures forall id :: Req(Admitted(p.sched, cache), id).prompt == Req(p.sched, id).prompt
    ensures forall id :: Req(Admitted(p.sched, cache), id).prefillOffset == Req(p.sched, id).prefillOffset
  {
  }

  lemma {:induction false} AdmitPhaseFits(p: Pass)
    requires Shape(p.sched.cache) && PassFits(p)
    ensures PassFits(AdmitPhase(p)) && AdmitPhase(p).batch.decode == p.batch.decode
    decreases if p.budget > 0 then p.budget else 0, |p.sched.running|
  {
    hide CanAllocate, Allocate, Preempt, PlanChunk, PassFits, Admitted, InPool;
    var s := p.sched;
    if s.waiting != [] && p.budget > 0 && |s.running| < s.cfg.maxRunning {
      var id := s.waiting[0];
      var r := Req(s, id);
      var chunk := PlanChunk(s.cfg, r, p.budget);
      PlanFits(s.cfg, r, p.budget);
      if chunk > 0 {
        if !CanAllocate(s.cache, if s.cfg.chunkedPrefill then chunk else |r.prompt|, s.cfg.watermark) {
          if s.running != [] {
            PreemptFits(p);
            AdmitPhaseFits(PreemptIn(p));
          }
        } else {
          match Allocate(s.cache, id, r.prompt[..Min(chunk, |r.prompt|)], s.cfg.watermark)
          case Done(cache) =>
            AdmittedFits(p, cache);
            FillingFits(p.(sched := Admitted(s, cache)), id, chunk);
            AdmitPhaseFits(Filling(p.(sched := Admitted(s, cache)), id, chunk));
          case OutOfCacheBlocks =>
          case _ => SameRequestsFit(p, p.(sched := s.(waiting := s.waiting[1..]), raised := true));
        }
      }
    }
  }

  lemma SameRequestsFit(p: Pass, p1: Pass)
    requires PassFits(p) && p1.batch == p.batch && p1.sched.reqs == p.sched.reqs
    ensures PassFits(p1)
  {
  }

  lemma RunningDistinct(s: Sched)
    requires Conserved(s)
    ensures NoDup(s.running)
  {
    forall i, j | 0 <= i < j < |s.running| ensures s.running[i] != s.running[j] {
      assert Places(s, s.running[i]) <= 1;
      if s.running[i] == s.running[j] {
        TwiceInside(s.running, i, j);
      }
    }
  }

  lemma TwiceInside(ids: seq<SeqId>, i: nat, j: nat)
    requires i < j < |ids| && ids[i] == ids[j]
    ensures multiset(ids)[ids[i]] >= 2
  {
    assert ids == ids[..j] + ids[j..];
    assert ids[i] in ids[..j] && ids[j] in ids[j..];
  }

  /** Every chunk a pass plans fits in what is left of its prompt, and nobody decodes twice. */
  lemma ScheduleFits(s: Sched)
    requires Conserved(s) && Shape(s.cache)
    ensures PassFits(Schedule(s)) && NoDup(Schedule(s).batch.decode)
  {
    hide DecodePhase, PrefillPhase, AdmitPhase, Shape, Conserved;
    var p0 := Pass(s, EMPTY_BATCH, s.cfg.maxBatchedTokens, false);
    RunningDistinct(s);
    assert EMPTY_BATCH.decode + s.running == s.running;
    DecodePhaseFits(p0, s.running);
    var p1 := DecodePhase(p0, s.running);
    PrefillPhaseFits(p1, p1.sched.running);
    AdmitPhaseFits(PrefillPhase(p1, p1.sched.running));
  }

  /** Each batch that a pass over a sound state builds, and the step that executes it: within the
      scheduled tokens exactly when the repeated ids are done with one chunk, and serving nobody twice
      exactly when the repeated ids are not ready or decoded anyway. A batch without a repeated id
      keeps the token budget and serves each request once. */
  lemma RepeatsExactly(s: Sched)
    requires Sound(s)
    ensures var p := Schedule(s);
      var prefilled := PrefillAll(p.sched, p.batch.prefill, p.batch.chunkSizes);
      prefilled.Returned? ==>
        var executed := Sum(Executed(p.sched, prefilled.sched, p.batch.chunkSizes));
        && (executed <= Sum(p.batch.chunkSizes) <==> RepeatsAreDone(p.sched, p.batch))
        && (NoDup(Served(prefilled.sched, p.batch)) <==> RepeatsAreUnready(prefilled.sched, p.batch))
        && (NoDup(p.batch.prefill) ==>
              |p.batch.decode| + executed <= s.cfg.maxBatchedTokens && NoDup(Served(prefilled.sched, p.batch)))
  {
    hide Schedule, PrefillAll, Executed, Served, WithinBudget, FreeOk, RefOk, IndexOk;
    hide HashOk, TablesOk, WaitingReset, HistoriesOk, QueueLimits, TablesAreRunning, Occurrences;
    ScheduleFits(s);
    var newly := ScheduleKeeps(s, false);
    ScheduleWithinBudget(s);
    var p := Schedule(s);
    if PrefillAll(p.sched, p.batch.prefill, p.batch.chunkSizes).Returned? {
      ExecutesScheduled(p.sched, p.batch);
      ServesOnce(PrefillAll(p.sched, p.batch.prefill, p.batch.chunkSizes).sched, p.batch);
      NoDupOccurs(p.batch.prefill);
    }
  }
}
