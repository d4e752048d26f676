/** What a request's state says: where it stands and how far it has come. */
module SchedulerStates {
  import opened Prelude
  import opened BlockPool
  import opened SchedulerModel
  import opened SchedulerInvariant
  import opened SchedulerSteps
  import opened SchedulerPass
  import opened SchedulerEngine
  import opened SchedulerRuns
  import opened SchedulerProgress

  /** A request that waits says whether it has been preempted, one that runs whether its prompt is done, and one
      that has finished or was aborted says so. */
  ghost predicate StateOk(s: Sched, id: SeqId) {
    var r := Req(s, id);
    && (id in s.waiting ==> r.state == if r.preemptions > 0 then Preempted else Waiting)
    && (id in s.running ==> r.state == if r.PrefillDone() then Running else Prefilling)
    && (id in s.finished || id in s.aborted ==> r.state == Finished)
  }

  ghost predicate StatesOk(s: Sched) {
    forall id :: StateOk(s, id)
  }

  // ----- a pass -----

  lemma PreemptStates(s: Sched)
    requires Sound(s) && s.running != [] && StatesOk(s)
    ensures StatesOk(Preempt(s))
  {
    PreemptKeeps(s);
    var s', v := Preempt(s), s.running[|s.running| - 1];
    hide Sound, View;
    forall id ensures StateOk(s', id) {
      assert StateOk(s, id);
      PartOfSound(s);
      PartOfSound(s');
      RunningOnce(s, id);
      RunningOnce(s, v);
      RunningOnce(s', id);
      LastMembers(s.running);
    }
  }

  lemma PartOfSound(s: Sched)
    requires Sound(s)
    ensures Conserved(s) && Shape(s.cache) && WaitingReset(s) && HistoriesOk(s)
  {
  }

  lemma AdmittedStates(s: Sched, cache: Cache)
    requires Conserved(s) && WaitingReset(s) && HistoriesOk(s) && StatesOk(s) && s.waiting != []
    requires Conserved(Admitted(s, cache))
    ensures StatesOk(Admitted(s, cache))
  {
    var s', h := Admitted(s, cache), s.waiting[0];
    RunningOnce(s, h);
    assert HistoryOk(s.reqs[h]);
    forall id ensures StateOk(s', id) {
      assert StateOk(s, id);
      RunningOnce(s, id);
      RunningOnce(s', id);
      assert id in s'.running <==> id in s.running || id == h;
    }
  }

  lemma {:induction false} DecodePhaseStates(p: Pass, snapshot: seq<SeqId>, limit: nat)
    requires PassOk(p, limit, map[], false) && StatesOk(p.sched)
    requires forall id | id in snapshot :: id in p.sched.reqs
    ensures Shape(p.sched.cache) && StatesOk(DecodePhase(p, snapshot).sched)
    decreases |snapshot|
  {
    PartOfSound(p.sched);
    hide Sound, CanAllocate, Preempt, Loaded, LengthsOk, StatesOk, WithinBudget, BatchOk;
    var none: map<SeqId, nat> := map[];
    if snapshot != [] {
      var id, s := snapshot[0], p.sched;
      if Req(s, id).PrefillDone() && p.budget >= 1 {
        if CanAllocate(s.cache, 1, s.cfg.watermark) {
          DecodingOk(p, limit, id);
          DecodePhaseStates(Decoding(p, id), snapshot[1..], limit);
        } else if s.running != [] {
          PreemptInKeeps(p, limit, none, false);
          PreemptStates(s);
          var v := s.running[|s.running| - 1];
          assert none - {v} == none;
          DecodingOk(PreemptIn(p), limit, id);
          DecodePhaseStates(if v == id then PreemptIn(p) else Decoding(PreemptIn(p), id), snapshot[1..], limit);
        }
      } else if !Req(s, id).PrefillDone() {
        DecodePhaseStates(p, snapshot[1..], limit);
      }
    }
  }

  lemma DecodingOk(p: Pass, limit: nat, id: SeqId)
    requires PassOk(p, limit, map[], false) && id in p.sched.reqs && p.budget >= 1
    ensures PassOk(Decoding(p, id), limit, map[], false)
  {
    hide Sound;
  }

  lemma {:induction false} AdmitPhaseStates(p: Pass, limit: nat, newly: map<SeqId, nat>)
    requires PassOk(p, limit, newly, false) && StatesOk(p.sched)
    ensures Shape(p.sched.cache) && StatesOk(AdmitPhase(p).sched)
    decreases p.budget, |p.sched.running|
  {
    var s := p.sched;
    PartOfSound(s);
    hide Sound, WithinBudget, BatchOk, NewlyInBatch, CanAllocate, Allocate, Preempt, Loaded, LengthsOk, StatesOk, Shape;
    hide Conserved, WaitingReset, HistoriesOk;
    if s.waiting != [] && p.budget > 0 && |s.running| < s.cfg.maxRunning {
      var id := s.waiting[0];
      var r := Req(s, id);
      var chunk := PlanChunk(s.cfg, r, p.budget);
      if chunk > 0 {
        if CanAllocate(s.cache, if s.cfg.chunkedPrefill then chunk else |r.prompt|, s.cfg.watermark) {
          AdmitOneKeeps(p, limit, newly, false, chunk);
          var cache := Allocate(s.cache, id, r.prompt[..Min(chunk, |r.prompt|)], s.cfg.watermark).cache;
          PartOfSound(Admitted(s, cache));
          AdmittedStates(s, cache);
          AdmitPhaseStates(Filling(p.(sched := Admitted(s, cache)), id, chunk), limit, newly[id := chunk]);
        } else if s.running != [] {
          PreemptInKeeps(p, limit, newly, false);
          PreemptStates(s);
          AdmitPhaseStates(PreemptIn(p), limit, newly - {s.running[|s.running| - 1]});
        }
      }
    }
  }

  lemma ScheduleStates(s: Sched)
    requires Sound(s) && StatesOk(s)
    ensures Shape(s.cache) && StatesOk(Schedule(s).sched)
  {
    SoundIsShaped(s);
    hide Sound, StatesOk, DecodePhase, PrefillPhase, AdmitPhase, BatchOk;
    var limit := s.cfg.maxBatchedTokens;
    var p0 := Pass(s, EMPTY_BATCH, limit, false);
    StartsOk(s);
    DecodePhaseStates(p0, s.running, limit);
    DecodePhaseKeeps(p0, s.running, limit, false);
    var p := DecodePhase(p0, s.running);
    PrefillsKeep(p, limit);
    AdmitPhaseStates(PrefillPhase(p, p.sched.running), limit, map[]);
  }

  // ----- a step -----

  lemma AdvanceStates(s: Sched, id: SeqId, chunk: nat)
    requires Conserved(s) && StatesOk(s) && id in s.running && chunk > 0
    ensures StatesOk(AdvancePrefill(s, id, chunk))
  {
    hide Conserved;
    var s' := AdvancePrefill(s, id, chunk);
    RunningOnce(s, id);
    forall x ensures StateOk(s', x) {
      assert StateOk(s, x) && StateOk(s, id);
      RunningOnce(s, x);
    }
  }

  lemma SameStates(s: Sched, cache: Cache)
    requires StatesOk(s)
    ensures StatesOk(s.(cache := cache))
  {
    forall x ensures StateOk(s.(cache := cache), x) {
      assert StateOk(s, x);
    }
  }

  lemma CoverStates(s: Sched, id: SeqId, i: nat, end: nat)
    requires Sound(s) && StatesOk(s) && end <= |Req(s, id).prompt|
    ensures Shape(s.cache)
    ensures var r := CoverPrompt(s, id, i, end);
      StatesOk(r.sched) && Conserved(r.sched) && r.sched.running == s.running
    ensures id in s.waiting && i < end ==> CoverPrompt(s, id, i, end).Raised?
  {
    NotWaiting(s, id);
    CoverSound(s, id, i, end);
    PartOfSound(s);
    PartOfSound(CoverPrompt(s, id, i, end).sched);
    hide Sound, CoverPrompt, View, StatesOk, Conserved;
    SameStates(s, CoverPrompt(s, id, i, end).sched.cache);
  }

  lemma PrefillOneStates(s: Sched, id: SeqId, chunk: nat)
    requires Sound(s) && StatesOk(s) && id in Line(s) && chunk > 0
    ensures Shape(s.cache) && StatesOk(PrefillOne(s, id, chunk).sched)
  {
    NotWaiting(s, id);
    PartOfSound(s);
    hide Sound, CoverPrompt, View, HistoriesOk, WaitingReset, Shape, StatesOk, AdvancePrefill, Conserved;
    var q := Req(s, id);
    var end := Min(|q.prompt|, q.prefillOffset + chunk);
    CoverStates(s, id, q.prefillOffset, end);
    var covered := CoverPrompt(s, id, q.prefillOffset, end);
    if covered.Returned? {
      AdvanceStates(covered.sched, id, chunk);
    }
  }

  lemma {:induction false} PrefillAllStates(s: Sched, ids: seq<SeqId>, chunkSizes: map<SeqId, nat>)
    requires Sound(s) && StatesOk(s)
    requires forall id | id in ids :: id in Line(s) && id in s.reqs && id in chunkSizes && chunkSizes[id] > 0
    ensures Shape(s.cache) && StatesOk(PrefillAll(s, ids, chunkSizes).sched)
    decreases |ids|
  {
    PartOfSound(s);
    hide Sound, PrefillOne, StatesOk, Shape, Conserved, WaitingReset, HistoriesOk;
    if ids != [] {
      PrefillOneSound(s, ids[0], chunkSizes[ids[0]]);
      PrefillOneStates(s, ids[0], chunkSizes[ids[0]]);
      var r := PrefillOne(s, ids[0], chunkSizes[ids[0]]);
      if r.Returned? {
        assert Line(r.sched) == Line(s);
        PrefillAllStates(r.sched, ids[1..], chunkSizes);
      }
    }
  }

  lemma FinishStates(s: Sched, id: SeqId)
    requires Conserved(s) && Shape(s.cache) && StatesOk(s) && id in s.running
    ensures StatesOk(Finish(s, id))
  {
    hide Free;
    var s' := Finish(s, id);
    RunningOnce(s, id);
    FinishConserves(s, id);
    forall x ensures StateOk(s', x) {
      assert StateOk(s, x);
    }
  }

  lemma EmittedStates(s: Sched, id: SeqId, tok: Token)
    requires StatesOk(s)
    ensures StatesOk(Emitted(s, id, tok))
  {
    forall x ensures StateOk(Emitted(s, id, tok), x) {
      assert StateOk(s, x);
    }
  }

  lemma ServeOneStates(s: Sched, id: SeqId, choice: Choice)
    requires Sound(s) && StatesOk(s) && id in s.reqs && Req(s, id).PrefillDone()
    ensures Shape(s.cache) && StatesOk(ServeOne(s, id, choice).sched)
  {
    NotWaiting(s, id);
    ServeCases(s, id, choice);
    PartOfSound(s);
    hide Sound, Append, View, StatesOk, Shape, Conserved, WaitingReset, HistoriesOk, Emitted, Finish;
    EmittedStates(s, id, choice.token);
    var s1, a := Emitted(s, id, choice.token), Append(s.cache, id, choice.token);
    if a.Done? {
      var s2 := s1.(cache := a.cache);
      SameStates(s1, a.cache);
      PartOfSound(s2);
      FinishStates(s2, id);
    }
  }

  lemma {:induction false} ServeAllStates(s: Sched, ids: seq<SeqId>, choices: seq<Choice>)
    requires Sound(s) && StatesOk(s) && forall id | id in ids :: id in s.reqs && Req(s, id).PrefillDone()
    ensures Shape(s.cache) && StatesOk(ServeAll(s, ids, choices).sched)
    decreases |ids|
  {
    PartOfSound(s);
    hide Sound, ServeOne, StatesOk, Shape, Conserved, WaitingReset, HistoriesOk;
    if ids != [] && choices != [] {
      ServeOneSound(s, ids[0], choices[0]);
      ServeOneStates(s, ids[0], choices[0]);
      var r := ServeOne(s, ids[0], choices[0]);
      if r.Returned? {
        ServeAllStates(r.sched, ids[1..], choices[1..]);
      }
    }
  }

  /** Whoever a pass batches for prefill is in line. */
  lemma BatchInLine(s: Sched, r: Pass, n: nat, grants: seq<nat>, ids: seq<SeqId>, chunks: seq<nat>)
    requires Shape(s.cache) && Serves(s, r, n, grants, ids, chunks)
    ensures forall id | id in r.batch.prefill :: id in Line(r.sched)
  {
    hide DecodesInOrder, Yields, Newcomers, Recorded, Remembered, LastOut, Total, Paid, PrefillInTurn, Granted;
    GrantedAmong(s.running[..n], grants);
    forall id | id in r.batch.prefill ensures id in Line(s) {
      if id !in ids {
        var k :| 0 <= k < n && s.running[..n][k] == id;
        assert Line(s)[k] == id;
      }
    }
  }

  lemma StepStates(s: Sched, choices: seq<Choice>)
    requires Sound(s) && StatesOk(s)
    ensures Shape(s.cache) && StatesOk(Step(s, choices).sched)
  {
    ScheduleStates(s);
    var newly := ScheduleKeeps(s, false);
    var n, grants, ids, chunks := PassServes(s);
    var p := Schedule(s);
    BatchInLine(s, p, n, grants, ids, chunks);
    hide Sound, Schedule, PrefillAll, ServeAll, StatesOk, Serves, WithinBudget, Shape;
    PrefillAllStates(p.sched, p.batch.prefill, p.batch.chunkSizes);
    PrefillAllKeeps(p.sched, p.batch.prefill, p.batch.chunkSizes, map[], false);
    match PrefillAll(p.sched, p.batch.prefill, p.batch.chunkSizes)
    case Raised(s1) =>
    case Returned(s1) =>
      ReadyAreDone(s1, p.batch.decode, []);
      ReadyAreDone(s1, p.batch.prefill, p.batch.decode);
      ServeAllStates(s1, Ready(s1, p.batch.decode, []) + Ready(s1, p.batch.prefill, p.batch.decode), choices);
  }

  // ----- whole runs -----

  lemma AddStates(s: Sched, id: SeqId, prompt: seq<Token>, maxTokens: nat)
    requires Conserved(s) && StatesOk(s) && id !in s.reqs
    ensures var r := AddRequest(s, id, prompt, maxTokens); r.Accepted? ==> StatesOk(r.sched)
  {
    assert Places(s, id) == 0;
    if AddRequest(s, id, prompt, maxTokens).Accepted? {
      forall x ensures StateOk(AddRequest(s, id, prompt, maxTokens).sched, x) {
        assert StateOk(s, x);
        assert x in s.waiting + [id] <==> x in s.waiting || x == id;
      }
    }
  }

  lemma AbortStates(s: Sched, id: SeqId)
    requires Conserved(s) && Shape(s.cache) && StatesOk(s)
    ensures var r := Abort(s, id); r.Some? ==> StatesOk(r.value)
  {
    hide Free, Without, Conserved;
    var r := Abort(s, id);
    if r.Some? {
      AbortQueues(s, id);
      AbortIsFree(s, id);
      RunningOnce(s, id);
      forall x ensures StateOk(r.value, x) {
        assert StateOk(s, x);
      }
    }
  }

  lemma ExecStates(s: Sched, e: Event)
    requires Sound(s) && StatesOk(s) && Legal(s, e)
    ensures Shape(s.cache) && StatesOk(Exec(s, e).sched)
  {
    PartOfSound(s);
    hide Sound, Step, Abort, AddRequest, StatesOk, Conserved, Shape, WaitingReset, HistoriesOk;
    match e
    case Submit(id, prompt, n) => AddStates(s, id, prompt, n);
    case Cancel(id) => AbortStates(s, id);
    case Tick(choices) => StepStates(s, choices);
  }

  /** Over every run the state of a request tells where it is and how far it has come. */
  lemma {:induction false} RunsKeepStates(s: Sched, events: seq<Event>)
    requires Sound(s) && Shape(s.cache) && StatesOk(s) && LegalRun(s, events)
    ensures StatesOk(Play(s, events).sched)
    decreases |events|
  {
    hide Sound, Exec, StatesOk, Shape;
    if events != [] {
      ExecStates(s, events[0]);
      ExecKeeps(s, events[0], false);
      RunsKeepStates(Exec(s, events[0]).sched, events[1..]);
    }
  }
}
