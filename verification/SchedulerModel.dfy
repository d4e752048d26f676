/** The continuous-batching scheduler and the engine step that drives it, as
    functions on one value. The classes in Scheduler.dfy perform them in place. */
module SchedulerModel {
  import opened Prelude
  import opened BlockPool

  datatype SeqState = Waiting | Prefilling | Running | Preempted | Finished

  /** A request. `original` and `generated` are its history: the prompt it came with and
      every token appended to it since. No operation reads them. */
  datatype Request = Request(
    prompt: seq<Token>,
    output: seq<Token>,
    maxTokens: nat,
    prefillOffset: nat,
    cachedTokens: nat,
    preemptions: nat,
    state: SeqState,
    original: seq<Token>,
    generated: seq<Token>)
  {
    predicate PrefillDone() {
      prefillOffset >= |prompt|
    }
  }

  const NO_REQUEST := Request([], [], 0, 0, 0, 0, Finished, [], [])

  datatype Config = Config(
    maxRunning: nat,
    maxWaiting: nat,
    maxBatchedTokens: nat,
    watermark: real,
    chunkedPrefill: bool,
    chunkSize: int,
    maxContext: int)

  /** The scheduler with its cache. Queues hold request ids; `aborted` is history. */
  datatype Sched = Sched(
    cfg: Config,
    cache: Cache,
    reqs: map<SeqId, Request>,
    waiting: seq<SeqId>,
    running: seq<SeqId>,
    finished: seq<SeqId>,
    aborted: set<SeqId>)

  function Req(s: Sched, id: SeqId): Request {
    if id in s.reqs then s.reqs[id] else NO_REQUEST
  }

  datatype Batch = Batch(
    prefill: seq<SeqId>,
    decode: seq<SeqId>,
    preempted: seq<SeqId>,
    chunkSizes: map<SeqId, nat>)

  // ----- admission to the queue -----

  datatype Admission = Accepted(sched: Sched) | ContextLengthExceeded | QueueFull

  function AddRequest(s: Sched, id: SeqId, prompt: seq<Token>, maxTokens: nat): Admission {
    if |prompt| + maxTokens > s.cfg.maxContext then ContextLengthExceeded
    else if |s.waiting| >= s.cfg.maxWaiting then QueueFull
    else Accepted(s.(reqs := s.reqs[id := Request(prompt, [], maxTokens, 0, 0, 0, Waiting, prompt, [])],
                     waiting := s.waiting + [id]))
  }

  /** The queue without the first occurrence of id. */
  function Without(q: seq<SeqId>, id: SeqId): seq<SeqId> {
    if q == [] then []
    else if q[0] == id then q[1..]
    else [q[0]] + Without(q[1..], id)
  }

  function Abort(s: Sched, id: SeqId): (r: Option<Sched>)
    requires Shape(s.cache)
    ensures r.Some? ==> Shape(r.value.cache)
  {
    if id !in s.waiting && id !in s.running then None
    else
      var queues := if id in s.waiting then s.(waiting := Without(s.waiting, id))
                    else s.(running := Without(s.running, id));
      Some(queues.(reqs := s.reqs[id := Req(s, id).(state := Finished)],
                   cache := Free(s.cache, id),
                   aborted := s.aborted + {id}))
  }

  // ----- preemption -----

  /** Recompute preemption: generated tokens are folded into the prompt. */
  function Folded(r: Request): Request {
    r.(state := Preempted, preemptions := r.preemptions + 1,
       prompt := r.prompt + r.output, output := [], prefillOffset := 0)
  }

  /** Evict the most recently admitted request to the front of the waiting queue. */
  function Preempt(s: Sched): (r: Sched)
    requires Shape(s.cache) && s.running != []
    ensures Shape(r.cache) && |r.running| == |s.running| - 1 && r.cfg == s.cfg
  {
    var v := s.running[|s.running| - 1];
    s.(running := s.running[..|s.running| - 1],
       cache := Free(s.cache, v),
       reqs := s.reqs[v := Folded(Req(s, v))],
       waiting := [v] + s.waiting)
  }

  // ----- the three phases of schedule -----

  /** `raised` marks a step an exception escaped from. */
  datatype Pass = Pass(sched: Sched, batch: Batch, budget: int, raised: bool)

  function DecodePhase(p: Pass, snapshot: seq<SeqId>): (r: Pass)
    requires Shape(p.sched.cache)
    ensures Shape(r.sched.cache)
    decreases |snapshot|
  {
    if snapshot == [] then p
    else
      var id := snapshot[0];
      var s := p.sched;
      if !Req(s, id).PrefillDone() then DecodePhase(p, snapshot[1..])
      else if p.budget < 1 then p
      else if !CanAllocate(s.cache, 1, s.cfg.watermark) then
        if s.running == [] then p
        else
          var v := s.running[|s.running| - 1];
          var p1 := p.(sched := Preempt(s), batch := p.batch.(preempted := p.batch.preempted + [v]));
          if v == id then DecodePhase(p1, snapshot[1..])
          else DecodePhase(Decoding(p1, id), snapshot[1..])
      else DecodePhase(Decoding(p, id), snapshot[1..])
  }

  function Decoding(p: Pass, id: SeqId): Pass {
    p.(batch := p.batch.(decode := p.batch.decode + [id]), budget := p.budget - 1)
  }

  function PlanChunk(cfg: Config, r: Request, budget: int): int {
    var remaining := |r.prompt| - r.prefillOffset;
    if remaining <= 0 then 0
    else if !cfg.chunkedPrefill then (if remaining <= budget then remaining else 0)
    else Min(Min(remaining, cfg.chunkSize), budget)
  }

  function Filling(p: Pass, id: SeqId, chunk: nat): Pass {
    p.(batch := p.batch.(prefill := p.batch.prefill + [id], chunkSizes := p.batch.chunkSizes[id := chunk]),
       budget := p.budget - chunk)
  }

  function PrefillPhase(p: Pass, snapshot: seq<SeqId>): (r: Pass)
    ensures r.sched == p.sched && r.raised == p.raised
    decreases |snapshot|
  {
    if snapshot == [] then p
    else
      var id := snapshot[0];
      var r := Req(p.sched, id);
      var chunk := PlanChunk(p.sched.cfg, r, p.budget);
      if r.PrefillDone() || p.budget <= 0 || chunk <= 0 then PrefillPhase(p, snapshot[1..])
      else PrefillPhase(Filling(p, id, chunk), snapshot[1..])
  }

  /** The request at the head of the queue starts running with its first chunk allocated. */
  function Admitted(s: Sched, cache: Cache): Sched
    requires s.waiting != []
  {
    var id := s.waiting[0];
    var cached := if id in cache.tables then cache.tables[id].numCached else 0;
    s.(waiting := s.waiting[1..], running := s.running + [id], cache := cache,
       reqs := s.reqs[id := Req(s, id).(cachedTokens := cached, state := Prefilling)])
  }

  function AdmitPhase(p: Pass): (r: Pass)
    requires Shape(p.sched.cache)
    ensures Shape(r.sched.cache)
    decreases if p.budget > 0 then p.budget else 0, |p.sched.running|
  {
    var s := p.sched;
    if s.waiting == [] || p.budget <= 0 || |s.running| >= s.cfg.maxRunning then p
    else
      var id := s.waiting[0];
      var r := Req(s, id);
      var chunk := PlanChunk(s.cfg, r, p.budget);
      if chunk <= 0 then p
      else
        var need := if s.cfg.chunkedPrefill then chunk else |r.prompt|;
        if !CanAllocate(s.cache, need, s.cfg.watermark) then
          if s.running == [] then p
          else
            var v := s.running[|s.running| - 1];
            AdmitPhase(p.(sched := Preempt(s), batch := p.batch.(preempted := p.batch.preempted + [v])))
        else
          match Allocate(s.cache, id, r.prompt[..Min(chunk, |r.prompt|)], s.cfg.watermark)
          case Done(cache) => AdmitPhase(Filling(p.(sched := Admitted(s, cache)), id, chunk))
          case OutOfCacheBlocks => p
          case _ => p.(sched := s.(waiting := s.waiting[1..]), raised := true)
  }

  const EMPTY_BATCH := Batch([], [], [], map[])

  function Schedule(s: Sched): (r: Pass)
    requires Shape(s.cache)
    ensures Shape(r.sched.cache)
  {
    var p1 := DecodePhase(Pass(s, EMPTY_BATCH, s.cfg.maxBatchedTokens, false), s.running);
    AdmitPhase(PrefillPhase(p1, p1.sched.running))
  }

  // ----- completion -----

  function AdvancePrefill(s: Sched, id: SeqId, chunk: nat): Sched {
    var r := Req(s, id);
    var r1 := r.(prefillOffset := Min(|r.prompt|, r.prefillOffset + chunk) as nat);
    s.(reqs := s.reqs[id := if r1.PrefillDone() then r1.(state := Running) else r1])
  }

  /** The token is recorded before the cache is asked to grow. */
  function Emitted(s: Sched, id: SeqId, tok: Token): Sched {
    var r := Req(s, id);
    s.(reqs := s.reqs[id := r.(output := r.output + [tok], generated := r.generated + [tok])])
  }

  function Finish(s: Sched, id: SeqId): (r: Sched)
    requires Shape(s.cache)
    ensures Shape(r.cache)
  {
    s.(running := Without(s.running, id), finished := s.finished + [id],
       reqs := s.reqs[id := Req(s, id).(state := Finished)],
       cache := Free(s.cache, id))
  }

  // ----- the engine step -----

  /** A step either returns or is cut short by an exception; either way it leaves a state. */
  datatype Stepped = Returned(sched: Sched) | Raised(sched: Sched)

  /** Grow the table of id until it covers prompt positions i..end. */
  function CoverPrompt(s: Sched, id: SeqId, i: nat, end: nat): (r: Stepped)
    requires Shape(s.cache) && end <= |Req(s, id).prompt|
    ensures Shape(r.sched.cache)
    decreases end - i
  {
    if i >= end then Returned(s)
    else if id !in s.cache.tables then Raised(s)
    else if i < s.cache.tables[id].numTokens then CoverPrompt(s, id, i + 1, end)
    else
      match Append(s.cache, id, Req(s, id).prompt[i])
      case Done(cache) => CoverPrompt(s.(cache := cache), id, i + 1, end)
      case _ => Raised(s)
  }

  function PrefillOne(s: Sched, id: SeqId, chunk: nat): (r: Stepped)
    requires Shape(s.cache)
    ensures Shape(r.sched.cache)
  {
    var r := Req(s, id);
    match CoverPrompt(s, id, r.prefillOffset, Min(|r.prompt|, r.prefillOffset + chunk))
    case Raised(s1) => Raised(s1)
    case Returned(s1) => Returned(AdvancePrefill(s1, id, chunk))
  }

  function PrefillAll(s: Sched, ids: seq<SeqId>, chunkSizes: map<SeqId, nat>): (r: Stepped)
    requires Shape(s.cache)
    ensures Shape(r.sched.cache)
    decreases |ids|
  {
    if ids == [] then Returned(s)
    else
      match PrefillOne(s, ids[0], if ids[0] in chunkSizes then chunkSizes[ids[0]] else 0)
      case Raised(s1) => Raised(s1)
      case Returned(s1) => PrefillAll(s1, ids[1..], chunkSizes)
  }

  /** What the backend, the sampler and the stop conditions decide for one ready request. */
  datatype Choice = Choice(token: Token, stop: bool)

  function Ready(s: Sched, ids: seq<SeqId>, except: seq<SeqId>): seq<SeqId> {
    if ids == [] then []
    else
      var rest := Ready(s, ids[1..], except);
      if Req(s, ids[0]).PrefillDone() && ids[0] !in except then [ids[0]] + rest else rest
  }

  function ServeOne(s: Sched, id: SeqId, choice: Choice): (r: Stepped)
    requires Shape(s.cache)
    ensures Shape(r.sched.cache)
  {
    var s1 := Emitted(s, id, choice.token);
    match Append(s1.cache, id, choice.token)
    case Done(cache) =>
      var s2 := s1.(cache := cache);
      var r := Req(s2, id);
      Returned(if choice.stop || |r.output| >= r.maxTokens then Finish(s2, id) else s2)
    case _ => Raised(s1)
  }

  function ServeAll(s: Sched, ids: seq<SeqId>, choices: seq<Choice>): (r: Stepped)
    requires Shape(s.cache)
    ensures Shape(r.sched.cache)
    decreases |ids|
  {
    if ids == [] || choices == [] then Returned(s)
    else
      match ServeOne(s, ids[0], choices[0])
      case Raised(s1) => Raised(s1)
      case Returned(s1) => ServeAll(s1, ids[1..], choices[1..])
  }

  /** One engine step. `choices` has one entry for each ready request, in order. */
  function Step(s: Sched, choices: seq<Choice>): (r: Stepped)
    requires Shape(s.cache)
    ensures Shape(r.sched.cache)
  {
    var p := Schedule(s);
    if p.raised then Raised(p.sched)
    else
      match PrefillAll(p.sched, p.batch.prefill, p.batch.chunkSizes)
      case Raised(s1) => Raised(s1)
      case Returned(s1) =>
        ServeAll(s1, Ready(s1, p.batch.decode, []) + Ready(s1, p.batch.prefill, p.batch.decode), choices)
  }
}
