/** The engine's step loop: the only place where requests make progress. */
module Engine {
  import opened Prelude
  import opened BlockPool
  import opened BlockPoolInvariant
  import opened SchedulerModel
  import opened SchedulerInvariant
  import SchedulerPass
  import SchedulerEngine
  import PagedKVCache
  import Scheduler

  class Engine {
    const scheduler: Scheduler.Scheduler

    constructor (scheduler: Scheduler.Scheduler)
      ensures this.scheduler == scheduler
    {
      this.scheduler := scheduler;
    }

    /** One step. `choices` stands for what the model, the sampler and the stop conditions
        decide for each ready request. Returns false when an exception escapes. */
    method Step(choices: seq<Choice>) returns (returned: bool)
      requires Sound(scheduler.State())
      modifies scheduler, scheduler.cache
      ensures SchedulerModel.Step(old(scheduler.State()), choices) ==
        if returned then Returned(scheduler.State()) else Raised(scheduler.State())
      ensures Sound(scheduler.State())
      ensures returned && old(Settled(scheduler.State()) && LengthsOk(scheduler.State())) ==>
        Settled(scheduler.State()) && LengthsOk(scheduler.State())
    {
      hide Sound, Settled, LengthsOk, SchedulerModel.Schedule, PrefillAll, ServeAll, Shape;
      ghost var s := scheduler.State();
      ghost var normal := Settled(s) && LengthsOk(s);
      SchedulerEngine.StepKeeps(s, choices, normal);
      ghost var newly := SchedulerPass.ScheduleKeeps(s, false);
      var batch := scheduler.Schedule();
      ghost var s0 := scheduler.State();
      SchedulerEngine.PrefillAllKeeps(s0, batch.prefill, batch.chunkSizes, newly, false);
      returned := PrefillBatch(batch.prefill, batch.chunkSizes);
      if !returned {
        return;
      }
      ghost var s1 := scheduler.State();
      SchedulerEngine.ReadyAreDone(s1, batch.decode, []);
      SchedulerEngine.ReadyAreDone(s1, batch.prefill, batch.decode);
      var decodes := ReadyAmong(batch.decode, []);
      var prefills := ReadyAmong(batch.prefill, batch.decode);
      returned := Serve(decodes + prefills, choices);
    }

    method ReadyAmong(ids: seq<SeqId>, except: seq<SeqId>) returns (ready: seq<SeqId>)
      ensures ready == Ready(scheduler.State(), ids, except)
    {
      ready := [];
      ghost var s := scheduler.State();
      var i := |ids|;
      while i > 0
        invariant 0 <= i <= |ids|
        invariant ready == Ready(s, ids[i..], except)
      {
        i := i - 1;
        var id := ids[i];
        assert ids[i..][1..] == ids[i + 1..];
        var r := if id in scheduler.requests then scheduler.requests[id] else NO_REQUEST;
        if r.PrefillDone() && id !in except {
          ready := [id] + ready;
        }
      }
    }

    /** Extends tables over the prompt positions a chunk covers. */
    method CoverChunk(id: SeqId, from: nat, end: nat) returns (returned: bool)
      requires scheduler.cache.Valid() && id in scheduler.requests && end <= |scheduler.requests[id].prompt|
      modifies scheduler, scheduler.cache
      ensures scheduler.cache.Valid() && scheduler.requests == old(scheduler.requests)
      ensures CoverPrompt(old(scheduler.State()), id, from, end) ==
        if returned then Returned(scheduler.State()) else Raised(scheduler.State())
    {
      hide FreeOk, RefOk, IndexOk, HashOk, TablesOk, View, Append;
      var cache := scheduler.cache;
      var prompt := scheduler.requests[id].prompt;
      ghost var start := scheduler.State();
      var i := from;
      while i < end
        invariant cache.Valid()
        invariant scheduler.State() == start.(cache := cache.State())
        invariant CoverPrompt(start, id, from, end) == CoverPrompt(scheduler.State(), id, i, end)
      {
        if id !in cache.tables {
          return false;
        }
        if i >= cache.tables[id].numTokens {
          var status := cache.AppendToken(id, prompt[i]);
          if status != PagedKVCache.Ok {
            return false;
          }
        }
        i := i + 1;
      }
      returned := true;
    }

    method PrefillNext(id: SeqId, chunk: nat) returns (returned: bool)
      requires scheduler.cache.Valid() && id in scheduler.requests
      modifies scheduler, scheduler.cache
      ensures PrefillOne(old(scheduler.State()), id, chunk) ==
        if returned then Returned(scheduler.State()) else Raised(scheduler.State())
    {
      hide FreeOk, RefOk, IndexOk, HashOk, TablesOk, View, CoverPrompt;
      var r := scheduler.requests[id];
      returned := CoverChunk(id, r.prefillOffset, Min(|r.prompt|, r.prefillOffset + chunk));
      if returned {
        scheduler.AdvancePrefill(id, chunk);
      }
    }

    lemma PrefillAllNext(s: Sched, ids: seq<SeqId>, i: nat, chunkSizes: map<SeqId, nat>)
      requires i < |ids| && ids[i] in chunkSizes && Sound(s)
      ensures SchedulerModel.PrefillAll(s, ids[i..], chunkSizes) ==
        match PrefillOne(s, ids[i], chunkSizes[ids[i]])
        case Raised(s1) => Raised(s1)
        case Returned(s1) => SchedulerModel.PrefillAll(s1, ids[i + 1..], chunkSizes)
    {
      hide FreeOk, RefOk, IndexOk, HashOk, TablesOk, View, PrefillOne, Conserved;
      assert ids[i..][1..] == ids[i + 1..];
    }

    lemma PrefillAllDone(s: Sched, ids: seq<SeqId>, chunkSizes: map<SeqId, nat>)
      requires Sound(s)
      ensures ids == [] ==> PrefillAll(s, ids, chunkSizes) == Returned(s)
    {
      hide FreeOk, RefOk, IndexOk, HashOk, TablesOk, View, PrefillOne, Conserved;
    }

    method PrefillBatch(ids: seq<SeqId>, chunkSizes: map<SeqId, nat>) returns (returned: bool)
      requires Sound(scheduler.State())
      requires forall id | id in ids :: id in scheduler.requests && id in chunkSizes && chunkSizes[id] > 0
      modifies scheduler, scheduler.cache
      ensures PrefillAll(old(scheduler.State()), ids, chunkSizes) ==
        if returned then Returned(scheduler.State()) else Raised(scheduler.State())
    {
      hide FreeOk, RefOk, IndexOk, HashOk, TablesOk, View, PrefillOne, PrefillAll, Conserved, WaitingReset;
      hide HistoriesOk, QueueLimits, TablesAreRunning;
      ghost var start := scheduler.State();
      assert ids[0..] == ids;
      for i := 0 to |ids|
        invariant Sound(scheduler.State()) && scheduler.State().reqs.Keys == start.reqs.Keys
        invariant PrefillAll(start, ids, chunkSizes) == PrefillAll(scheduler.State(), ids[i..], chunkSizes)
      {
        PrefillAllNext(scheduler.State(), ids, i, chunkSizes);
        SchedulerEngine.PrefillOneSound(scheduler.State(), ids[i], chunkSizes[ids[i]]);
        var covered := PrefillNext(ids[i], chunkSizes[ids[i]]);
        if !covered {
          return false;
        }
      }
      PrefillAllDone(scheduler.State(), ids[|ids|..], chunkSizes);
      returned := true;
    }

    /** Gives a ready request its token, and finishes it when it is done. */
    method ServeNext(id: SeqId, choice: Choice) returns (returned: bool)
      requires scheduler.cache.Valid() && id in scheduler.requests
      modifies scheduler, scheduler.cache
      ensures ServeOne(old(scheduler.State()), id, choice) ==
        if returned then Returned(scheduler.State()) else Raised(scheduler.State())
    {
      hide Inv, View, Append, SchedulerModel.Finish, Shape;
      returned := scheduler.AppendToken(id, choice.token);
      if returned {
        var r := scheduler.requests[id];
        if choice.stop || |r.output| >= r.maxTokens {
          scheduler.Finish(id);
        }
      }
    }

    method Serve(ids: seq<SeqId>, choices: seq<Choice>) returns (returned: bool)
      requires Sound(scheduler.State())
      requires forall id | id in ids :: id in scheduler.requests && scheduler.requests[id].PrefillDone()
      modifies scheduler, scheduler.cache
      ensures ServeAll(old(scheduler.State()), ids, choices) ==
        if returned then Returned(scheduler.State()) else Raised(scheduler.State())
    {
      hide FreeOk, RefOk, IndexOk, HashOk, TablesOk, View, ServeOne, Conserved, WaitingReset, HistoriesOk;
      hide QueueLimits, TablesAreRunning;
      ghost var start := scheduler.State();
      var i := 0;
      while i < |ids| && i < |choices|
        invariant i <= |ids| && i <= |choices|
        invariant Sound(scheduler.State()) && scheduler.State().reqs.Keys == start.reqs.Keys
        invariant forall id | id in ids :: Req(scheduler.State(), id).PrefillDone()
        invariant ServeAll(start, ids, choices) == ServeAll(scheduler.State(), ids[i..], choices[i..])
      {
        assert ids[i..][1..] == ids[i + 1..] && choices[i..][1..] == choices[i + 1..];
        SchedulerEngine.ServeOneSound(scheduler.State(), ids[i], choices[i]);
        var served := ServeNext(ids[i], choices[i]);
        if !served {
          return false;
        }
        i := i + 1;
      }
      returned := true;
    }
  }
}
