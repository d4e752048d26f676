/** Whole runs of the engine: any order of submissions, aborts and steps, with steps that
    raise as well as steps that return. */
module SchedulerRuns {
  import opened Prelude
  import opened BlockPool
  import opened BlockPoolInvariant
  import opened SchedulerModel
  import BlockPoolRuns
  import opened SchedulerInvariant
  import opened SchedulerSteps
  import opened SchedulerPass
  import opened SchedulerEngine

  datatype Event =
    | Submit(id: SeqId, prompt: seq<Token>, maxTokens: nat)
    | Cancel(id: SeqId)
    | Tick(choices: seq<Choice>)

  /** What the engine asks of its callers: fresh request ids, prompts that are not empty,
      and at least one token to generate. */
  predicate Legal(s: Sched, e: Event) {
    e.Submit? ==> e.id !in s.reqs && e.prompt != [] && e.maxTokens >= 1
  }

  function Exec(s: Sched, e: Event): (r: Stepped)
    requires Shape(s.cache)
    ensures Shape(r.sched.cache)
  {
    match e
    case Submit(id, prompt, n) =>
      var r := AddRequest(s, id, prompt, n);
      if r.Accepted? then Returned(r.sched) else Raised(s)
    case Cancel(id) =>
      var r := Abort(s, id);
      Returned(if r.Some? then r.value else s)
    case Tick(choices) => Step(s, choices)
  }

  /** A rejected submission raises but leaves no trace, so it does not count as a step cut short. */
  function CutShort(s: Sched, e: Event): bool
    requires Shape(s.cache)
  {
    e.Tick? && Exec(s, e).Raised?
  }

  /** The state a sequence of events leads to, and whether no step of it was cut short. */
  datatype Played = Played(sched: Sched, clean: bool)

  function Play(s: Sched, events: seq<Event>): Played
    requires Shape(s.cache)
    decreases |events|
  {
    if events == [] then Played(s, true)
    else
      var rest := Play(Exec(s, events[0]).sched, events[1..]);
      rest.(clean := !CutShort(s, events[0]) && rest.clean)
  }

  predicate LegalRun(s: Sched, events: seq<Event>)
    requires Shape(s.cache)
    decreases |events|
  {
    events == [] || (Legal(s, events[0]) && LegalRun(Exec(s, events[0]).sched, events[1..]))
  }

  function NewScheduler(cfg: Config, cache: Cache): Sched {
    Sched(cfg, cache, map[], [], [], [], {})
  }

  lemma NewSchedulerIsSettled(cfg: Config, numBlocks: nat, blockSize: nat, caching: bool)
    requires blockSize > 0 && Reserve(numBlocks, cfg.watermark) >= 0
    ensures var s := NewScheduler(cfg, Fresh(numBlocks, blockSize, caching));
      Sound(s) && Settled(s) && LengthsOk(s)
  {
    BlockPoolRuns.FreshIsEmpty(numBlocks, blockSize, caching);
  }

  lemma ExecKeeps(s: Sched, e: Event, normal: bool)
    requires Sound(s) && Legal(s, e)
    requires normal ==> Settled(s) && LengthsOk(s)
    ensures Sound(Exec(s, e).sched)
    ensures normal && !CutShort(s, e) ==> Settled(Exec(s, e).sched) && LengthsOk(Exec(s, e).sched)
  {
    hide Step, Abort, View, FreeOk, RefOk, IndexOk, HashOk, TablesOk;
    hide Conserved, WaitingReset, HistoriesOk, QueueLimits, LengthsOk, Settled, TablesAreRunning;
    match e
    case Submit(id, prompt, n) => AddKeeps(s, id, prompt, n);
    case Cancel(id) => AbortKeeps(s, id);
    case Tick(choices) => StepKeeps(s, choices, normal);
  }

  /** Safety over every run. Whatever happens, the scheduler and its cache stay sound; and as
      long as no step was cut short, every running request is in step with its table and no
      sequence outgrows what its preemptions allow. */
  lemma {:induction false} RunsAreSafe(s: Sched, events: seq<Event>, normal: bool)
    requires Sound(s) && (normal ==> Settled(s) && LengthsOk(s)) && LegalRun(s, events)
    ensures var p := Play(s, events);
      Sound(p.sched) && (normal && p.clean ==> Settled(p.sched) && LengthsOk(p.sched))
    decreases |events|
  {
    hide Exec, View, FreeOk, RefOk, IndexOk, HashOk, TablesOk;
    hide Conserved, WaitingReset, HistoriesOk, QueueLimits, LengthsOk, Settled, TablesAreRunning;
    if events != [] {
      ExecKeeps(s, events[0], normal);
      RunsAreSafe(Exec(s, events[0]).sched, events[1..], normal && !CutShort(s, events[0]));
    }
  }

  // ----- what soundness means for one request -----

  /** An accepted request is in exactly one of waiting, running, finished and aborted, and
      holds cache blocks exactly while it runs. */
  lemma ExactlyOnePlace(s: Sched, id: SeqId)
    requires Sound(s) && id in s.reqs
    ensures var w, r, f, a := id in s.waiting, id in s.running, id in s.finished, id in s.aborted;
      && (w || r || f || a)
      && !(w && r) && !(w && f) && !(w && a) && !(r && f) && !(r && a) && !(f && a)
    ensures id in s.cache.tables <==> id in s.running
  {
    hide FreeOk, RefOk, IndexOk, HashOk, TablesOk, WaitingReset, HistoriesOk, QueueLimits;
    assert Places(s, id) == 1;
    assert id in s.waiting <==> multiset(s.waiting)[id] > 0;
    assert id in s.running <==> multiset(s.running)[id] > 0;
    assert id in s.finished <==> multiset(s.finished)[id] > 0;
    TableLength(s.cache, id);
  }

  /** In a settled state a running request's table is as long as its prefilled prompt and
      its output, and reads exactly those tokens; its total length is bounded by its
      original prompt and one allowance of max_tokens for every time it was started. */
  lemma RunningProgress(s: Sched, id: SeqId)
    requires Sound(s) && Settled(s) && LengthsOk(s) && id in s.running
    ensures var r := Req(s, id);
      && s.cache.tables[id].numTokens == r.prefillOffset + |r.output| <= |r.original + r.generated|
      && View(s.cache)[id] == (r.original + r.generated)[..r.prefillOffset + |r.output|]
      && |r.prompt| + |r.output| <= |r.original| + (r.preemptions + 1) * r.maxTokens
  {
    hide View, FreeOk, RefOk, IndexOk, HashOk, TablesOk, WaitingReset, QueueLimits, TablesAreRunning, Conserved;
    RunningOnce(s, id);
    assert InStep(s, id) && HistoryOk(s.reqs[id]) && Bounded(s.reqs[id]);
    TableLength(s.cache, id);
    ProgressArithmetic(Req(s, id));
  }

  lemma ProgressArithmetic(r: Request)
    requires HistoryOk(r) && Bounded(r) && r.prefillOffset <= |r.prompt|
    requires r.output != [] ==> r.prefillOffset == |r.prompt|
    ensures r.prefillOffset + |r.output| <= |r.original + r.generated|
    ensures r.prompt[..r.prefillOffset] + r.output == (r.original + r.generated)[..r.prefillOffset + |r.output|]
    ensures |r.prompt| + |r.output| <= |r.original| + (r.preemptions + 1) * r.maxTokens
  {
    assert (r.preemptions + 1) * r.maxTokens == r.preemptions * r.maxTokens + r.maxTokens;
    if r.output == [] {
      assert (r.prompt + r.output)[..r.prefillOffset] == r.prompt[..r.prefillOffset];
    } else {
      assert r.prompt[..|r.prompt|] + r.output == r.prompt + r.output;
    }
  }

  /** From a new scheduler over an empty pool, after any run: every request ever accepted is in exactly
      one place and holds a table exactly while it runs, and as long as no step was cut short the table
      of a running request reads what it has prefilled and generated, within its bound. */
  lemma FromTheStart(cfg: Config, numBlocks: nat, blockSize: nat, caching: bool, events: seq<Event>, id: SeqId)
    requires blockSize > 0 && Reserve(numBlocks, cfg.watermark) >= 0
    requires LegalRun(NewScheduler(cfg, Fresh(numBlocks, blockSize, caching)), events)
    ensures var p := Play(NewScheduler(cfg, Fresh(numBlocks, blockSize, caching)), events);
      var s := p.sched;
      && (id in s.reqs ==> Places(s, id) == 1 && (id in s.cache.tables <==> id in s.running))
      && (p.clean && id in s.running ==>
            && id in s.reqs && id in s.cache.tables
            && var r := s.reqs[id];
            && r.prefillOffset + |r.output| <= |r.original + r.generated|
            && View(s.cache)[id] == (r.original + r.generated)[..r.prefillOffset + |r.output|]
            && |r.prompt| + |r.output| <= |r.original| + (r.preemptions + 1) * r.maxTokens)
  {
    hide Play, LegalRun, View, FreeOk, RefOk, IndexOk, HashOk, TablesOk, LengthsOk, Settled, HistoriesOk, QueueLimits;
    var s := NewScheduler(cfg, Fresh(numBlocks, blockSize, caching));
    NewSchedulerIsSettled(cfg, numBlocks, blockSize, caching);
    RunsAreSafe(s, events, true);
    var p := Play(s, events);
    if id in p.sched.reqs {
      ExactlyOnePlace(p.sched, id);
    }
    if id in p.sched.running {
      RunningOnce(p.sched, id);
      if p.clean {
        RunningProgress(p.sched, id);
      }
    }
  }

  // ----- histories only grow -----

  /** No request is forgotten, its original prompt and its allowance never change, and the tokens it has
      generated stay generated, in order. */
  ghost predicate Remembers(s: Sched, s': Sched) {
    forall id | id in s.reqs ::
      && id in s'.reqs
      && s'.reqs[id].original == s.reqs[id].original && s'.reqs[id].maxTokens == s.reqs[id].maxTokens
      && s.reqs[id].generated <= s'.reqs[id].generated
  }

  lemma RemembersThen(s: Sched, s1: Sched, s2: Sched)
    requires Remembers(s, s1) && Remembers(s1, s2)
    ensures Remembers(s, s2)
  {
    forall id | id in s.reqs ensures s.reqs[id].generated <= s2.reqs[id].generated {
      assert id in s1.reqs;
    }
  }

  lemma {:induction false} DecodePhaseRemembers(p: Pass, snapshot: seq<SeqId>)
    requires Shape(p.sched.cache)
    ensures Remembers(p.sched, DecodePhase(p, snapshot).sched)
    decreases |snapshot|
  {
    hide CanAllocate, Free, InPool;
    if snapshot != [] {
      var id := snapshot[0];
      var s := p.sched;
      if !Req(s, id).PrefillDone() {
        DecodePhaseRemembers(p, snapshot[1..]);
      } else if p.budget >= 1 {
        if CanAllocate(s.cache, 1, s.cfg.watermark) {
          DecodePhaseRemembers(Decoding(p, id), snapshot[1..]);
        } else if s.running != [] {
          var v := s.running[|s.running| - 1];
          var p1 := if v == id then PreemptIn(p) else Decoding(PreemptIn(p), id);
          DecodePhaseRemembers(p1, snapshot[1..]);
          RemembersThen(s, p1.sched, DecodePhase(p1, snapshot[1..]).sched);
        }
      }
    }
  }

  lemma RemembersSelf(s: Sched, s': Sched)
    requires s'.reqs == s.reqs
    ensures Remembers(s, s) && Remembers(s, s')
  {
  }

  lemma AdmittedRemembers(s: Sched, cache: Cache)
    requires s.waiting != []
    ensures Remembers(s, Admitted(s, cache))
  {
  }

  lemma PreemptRemembers(s: Sched)
    requires Shape(s.cache) && s.running != []
    ensures Remembers(s, Preempt(s))
  {
    hide Free;
  }

  lemma {:induction false} AdmitPhaseRemembers(p: Pass)
    requires Shape(p.sched.cache)
    ensures Remembers(p.sched, AdmitPhase(p).sched)
    decreases if p.budget > 0 then p.budget else 0, |p.sched.running|
  {
    hide CanAllocate, Allocate, Free, InPool, Remembers;
    RemembersSelf(p.sched, p.sched.(waiting := if p.sched.waiting == [] then [] else p.sched.waiting[1..]));
    var s := p.sched;
    if s.waiting != [] && p.budget > 0 && |s.running| < s.cfg.maxRunning {
      var id := s.waiting[0];
      var r := Req(s, id);
      var chunk := PlanChunk(s.cfg, r, p.budget);
      if chunk > 0 {
        if CanAllocate(s.cache, if s.cfg.chunkedPrefill then chunk else |r.prompt|, s.cfg.watermark) {
          match Allocate(s.cache, id, r.prompt[..Min(chunk, |r.prompt|)], s.cfg.watermark)
          case Done(cache) =>
            var p1 := Filling(p.(sched := Admitted(s, cache)), id, chunk);
            AdmittedRemembers(s, cache);
            AdmitPhaseRemembers(p1);
            RemembersThen(s, p1.sched, AdmitPhase(p1).sched);
          case _ =>
        } else if s.running != [] {
          PreemptRemembers(s);
          AdmitPhaseRemembers(PreemptIn(p));
          RemembersThen(s, PreemptIn(p).sched, AdmitPhase(PreemptIn(p)).sched);
        }
      }
    }
  }

  lemma ScheduleRemembers(s: Sched)
    requires Shape(s.cache)
    ensures Remembers(s, Schedule(s).sched)
  {
    var p0 := Pass(s, EMPTY_BATCH, s.cfg.maxBatchedTokens, false);
    var p1 := DecodePhase(p0, s.running);
    DecodePhaseRemembers(p0, s.running);
    AdmitPhaseRemembers(PrefillPhase(p1, p1.sched.running));
    RemembersThen(s, p1.sched, Schedule(s).sched);
  }

  lemma {:induction false} PrefillAllRemembers(s: Sched, ids: seq<SeqId>, chunkSizes: map<SeqId, nat>)
    requires Shape(s.cache)
    ensures Remembers(s, PrefillAll(s, ids, chunkSizes).sched)
    decreases |ids|
  {
    hide Shape, CoverPrompt;
    if ids != [] {
      var id := ids[0];
      var chunk := if id in chunkSizes then chunkSizes[id] else 0;
      var r := Req(s, id);
      CoverOnlyCache(s, id, r.prefillOffset, Min(|r.prompt|, r.prefillOffset + chunk));
      match PrefillOne(s, id, chunk)
      case Raised(s1) =>
      case Returned(s1) =>
        PrefillAllRemembers(s1, ids[1..], chunkSizes);
        RemembersThen(s, s1, PrefillAll(s, ids, chunkSizes).sched);
    }
  }

  lemma {:induction false} ServeAllRemembers(s: Sched, ids: seq<SeqId>, choices: seq<Choice>)
    requires Shape(s.cache)
    ensures Remembers(s, ServeAll(s, ids, choices).sched)
    decreases |ids|
  {
    hide Shape, Append, Free;
    if ids != [] && choices != [] {
      match ServeOne(s, ids[0], choices[0])
      case Raised(s1) =>
      case Returned(s1) =>
        ServeAllRemembers(s1, ids[1..], choices[1..]);
        RemembersThen(s, s1, ServeAll(s, ids, choices).sched);
    }
  }

  /** One event of a run never loses a request or a generated token. */
  lemma ExecRemembers(s: Sched, e: Event)
    requires Shape(s.cache) && Legal(s, e)
    ensures Remembers(s, Exec(s, e).sched)
  {
    hide Shape, Schedule, PrefillAll, ServeAll, Free;
    match e
    case Submit(_, _, _) =>
    case Cancel(_) =>
      hide Without;
    case Tick(choices) =>
      ScheduleRemembers(s);
      var p := Schedule(s);
      if !p.raised {
        PrefillAllRemembers(p.sched, p.batch.prefill, p.batch.chunkSizes);
        var r := PrefillAll(p.sched, p.batch.prefill, p.batch.chunkSizes);
        RemembersThen(s, p.sched, r.sched);
        if r.Returned? {
          var ready := Ready(r.sched, p.batch.decode, []) + Ready(r.sched, p.batch.prefill, p.batch.decode);
          ServeAllRemembers(r.sched, ready, choices);
          RemembersThen(s, r.sched, ServeAll(r.sched, ready, choices).sched);
        }
      }
  }

  /** Over a whole run no request is lost and every generated token stays where it was. */
  lemma {:induction false} RunsRemember(s: Sched, events: seq<Event>)
    requires Shape(s.cache) && LegalRun(s, events)
    ensures Remembers(s, Play(s, events).sched)
    decreases |events|
  {
    hide Exec;
    if events != [] {
      var next := Exec(s, events[0]).sched;
      ExecRemembers(s, events[0]);
      RunsRemember(next, events[1..]);
      RemembersThen(s, next, Play(next, events[1..]).sched);
    }
  }

  /** An accepted request keeps the prompt it came with, followed by what it generates, and the allowance it came
      with, through every run. */
  lemma SubmittedStays(s: Sched, id: SeqId, prompt: seq<Token>, maxTokens: nat, events: seq<Event>)
    requires Sound(s) && Shape(s.cache) && Legal(s, Submit(id, prompt, maxTokens))
    requires var r := AddRequest(s, id, prompt, maxTokens); r.Accepted? && LegalRun(r.sched, events)
    ensures var s' := Play(AddRequest(s, id, prompt, maxTokens).sched, events).sched;
      && id in s'.reqs && s'.reqs[id].maxTokens == maxTokens
      && prompt <= s'.reqs[id].prompt + s'.reqs[id].output
  {
    AddSound(s, id, prompt, maxTokens);
    var s1 := AddRequest(s, id, prompt, maxTokens).sched;
    RunsAreSafe(s1, events, false);
    hide Play, LegalRun, PoolOk, Conserved, TablesAreRunning, WaitingReset, QueueLimits;
    RunsRemember(s1, events);
    var s' := Play(s1, events).sched;
    assert id in s1.reqs;
    assert HistoryOk(s'.reqs[id]);
  }
}
