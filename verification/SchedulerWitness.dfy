/** A pass that admits a request, preempts it and admits it again, and a step that then gives it two
    tokens at once. */
module SchedulerWitness {
  import opened Prelude
  import opened BlockPool
  import opened SchedulerModel
  import opened SchedulerPass
  import opened SchedulerRuns

  // ----- the pool: two blocks of four tokens -----

  function Pool(blocks: seq<Block>, store: seq<Slots>, free: seq<nat>, tables: map<SeqId, Table>, clock: int): Cache {
    Cache(4, false, blocks, store, free, tables, map[], clock)
  }

  const FREE_BLOCK := Block(0, 0, None, 0)
  const NO_SLOTS := Slots([], [])
  const FRESH_POOL := Pool([FREE_BLOCK, FREE_BLOCK], [NO_SLOTS, NO_SLOTS], [1, 0], map[], 0)

  function Holding(used: Block, free: seq<nat>, tables: map<SeqId, Table>, clock: int): Cache {
    Pool([used, FREE_BLOCK], [Slots([], [1]), NO_SLOTS], free, tables, clock)
  }

  const A_TABLE: map<SeqId, Table> := map["a" := Table([0], 1, 0)]
  const WITH_A := Holding(Block(1, 1, None, 0), [1], A_TABLE, 1)
  const A_FREED := Holding(Block(0, 0, None, 0), [1, 0], map[], 1)
  const WITH_A_AGAIN := Holding(Block(1, 1, None, 1), [1], A_TABLE, 2)
  const WITH_BOTH := Pool([Block(1, 1, None, 1), Block(1, 4, None, 2)], [Slots([], [1]), Slots([], [1, 2, 3, 4])], [],
    A_TABLE["b" := Table([1], 4, 0)], 3)

  lemma NoneEvictable(c: Cache)
    requires forall b: nat | b < |c.blocks| :: c.blocks[b].contentHash.None?
    ensures Available(c) == |c.free|
  {
    assert EvictableBlocks(c) == {};
  }

  /** Placing one chunk in the block on top of the free list, without caching. */
  lemma PlacesOne(c: Cache, id: SeqId, toks: seq<Token>)
    requires Shape(c) && c.blockSize == 4 && !c.caching && c.free != [] && 0 < |toks| <= 4 && id !in c.tables
    requires CanAllocate(c, |toks|, 0.0)
    ensures var b := c.free[|c.free| - 1];
      Allocate(c, id, toks, 0.0) == Done(c.(free := c.free[..|c.free| - 1],
        blocks := c.blocks[b := Block(1, |toks|, None, c.clock)], store := c.store[b := Slots([], toks)],
        tables := c.tables[id := Table([b], |toks|, 0)], clock := c.clock + 1))
  {
    var t, n := Table([], 0, 0), |toks|;
    var b := c.free[|c.free| - 1];
    var placed := c.(free := c.free[..|c.free| - 1], blocks := c.blocks[b := Block(1, n, None, c.clock)],
                     store := c.store[b := Slots([], toks)]);
    assert toks[..0] == [] && toks[0..n] == toks;
    assert PlaceChunk(c, t, Root, [], toks) == Advance(placed, Table([b], 0, 0), Root);
    assert PlaceAll(placed, Table([b], 0, 0), Root, toks, n) == Advance(placed, Table([b], 0, 0), Root);
    assert PlaceAll(c, t, Root, toks, 0) == Advance(placed, Table([b], 0, 0), Root);
  }

  lemma PoolsFit()
    ensures Shape(FRESH_POOL) && Shape(WITH_A) && Shape(A_FREED) && Shape(WITH_A_AGAIN) && Shape(WITH_BOTH)
    ensures Available(FRESH_POOL) == Available(A_FREED) == 2 && Available(WITH_A) == Available(WITH_A_AGAIN) == 1
  {
    NoneEvictable(FRESH_POOL);
    NoneEvictable(WITH_A);
    NoneEvictable(A_FREED);
    NoneEvictable(WITH_A_AGAIN);
  }

  lemma PlacesA()
    ensures Shape(FRESH_POOL) && Allocate(FRESH_POOL, "a", [1], 0.0) == Done(WITH_A)
    ensures CanAllocate(FRESH_POOL, 1, 0.0)
  {
    hide Allocate, Shape, Available;
    PoolsFit();
    PlacesOne(FRESH_POOL, "a", [1]);
  }

  lemma PlacesAAgain()
    ensures Shape(A_FREED) && Allocate(A_FREED, "a", [1], 0.0) == Done(WITH_A_AGAIN)
    ensures CanAllocate(A_FREED, 1, 0.0)
  {
    hide Allocate, Shape, Available;
    PoolsFit();
    PlacesOne(A_FREED, "a", [1]);
  }

  lemma PlacesB()
    ensures Shape(WITH_A_AGAIN) && Allocate(WITH_A_AGAIN, "b", [1, 2, 3, 4], 0.0) == Done(WITH_BOTH)
    ensures CanAllocate(WITH_A_AGAIN, 4, 0.0)
  {
    hide Allocate, Shape, Available;
    PoolsFit();
    assert WITH_A_AGAIN.free[..0] == [];
    PlacesOne(WITH_A_AGAIN, "b", [1, 2, 3, 4]);
  }

  lemma FreesOne()
    ensures Shape(WITH_A) && Free(WITH_A, "a") == A_FREED
  {
    assert Shape(WITH_A);
    var c := WITH_A.(tables := WITH_A.tables - {"a"});
    assert c.tables == map[];
    assert [0][1..] == [];
    assert Release(A_FREED, []) == A_FREED;
    assert Release(c, [0]) == Release(A_FREED, []);
  }

  // ----- the pass -----

  const LIMITS := Config(2, 2, 6, 0.0, true, 8, 100)

  function RequestA(cached: nat, preemptions: nat, state: SeqState): Request {
    Request([1], [], 3, 0, cached, preemptions, state, [1], [])
  }

  function RequestB(state: SeqState): Request {
    Request([1, 2, 3, 4, 5], [], 3, 0, 0, 0, state, [1, 2, 3, 4, 5], [])
  }

  function Stage(cache: Cache, a: Request, b: Request, waiting: seq<SeqId>, running: seq<SeqId>): Sched {
    Sched(LIMITS, cache, map["a" := a, "b" := b], waiting, running, [], {})
  }

  /** Both requests wait. */
  const BOTH_WAIT := Stage(FRESH_POOL, RequestA(0, 0, Waiting), RequestB(Waiting), ["a", "b"], [])
  const A_RUNS := Stage(WITH_A, RequestA(0, 0, Prefilling), RequestB(Waiting), ["b"], ["a"])
  const A_WAITS := Stage(A_FREED, RequestA(0, 1, Preempted), RequestB(Waiting), ["a", "b"], [])
  const A_RUNS_AGAIN := Stage(WITH_A_AGAIN, RequestA(0, 1, Prefilling), RequestB(Waiting), ["b"], ["a"])
  const BOTH_RUN := Stage(WITH_BOTH, RequestA(0, 1, Prefilling), RequestB(Prefilling), [], ["a", "b"])

  const LAST_BATCH := Batch(["a", "a", "b"], [], ["a"], map["a" := 1, "b" := 4])

  lemma Planned(budget: int)
    ensures PlanChunk(LIMITS, RequestA(0, 0, Waiting), budget) == PlanChunk(LIMITS, RequestA(0, 1, Preempted), budget)
      == if budget < 1 then budget else 1
    ensures PlanChunk(LIMITS, RequestB(Waiting), budget) == if budget < 5 then budget else 5
  {
  }

  /** Admission of the head of the queue. */
  lemma Grants(p: Pass, chunk: nat, cache: Cache, p1: Pass)
    requires Shape(p.sched.cache) && p.sched.waiting != [] && p.budget > 0
    requires |p.sched.running| < p.sched.cfg.maxRunning && p.sched.cfg.chunkedPrefill
    requires var r := Req(p.sched, p.sched.waiting[0]);
      && 0 < chunk <= |r.prompt| && PlanChunk(p.sched.cfg, r, p.budget) == chunk
      && CanAllocate(p.sched.cache, chunk, p.sched.cfg.watermark)
      && Allocate(p.sched.cache, p.sched.waiting[0], r.prompt[..chunk], p.sched.cfg.watermark) == Done(cache)
    requires p1 == Filling(p.(sched := Admitted(p.sched, cache)), p.sched.waiting[0], chunk)
    ensures Shape(p1.sched.cache) && AdmitPhase(p) == AdmitPhase(p1)
  {
    hide Allocate, CanAllocate, PlanChunk;
  }

  /** Preemption for want of blocks. */
  lemma Denies(p: Pass, chunk: nat, p1: Pass)
    requires Shape(p.sched.cache) && p.sched.waiting != [] && p.budget > 0
    requires |p.sched.running| < p.sched.cfg.maxRunning && p.sched.cfg.chunkedPrefill && p.sched.running != []
    requires chunk > 0 && PlanChunk(p.sched.cfg, Req(p.sched, p.sched.waiting[0]), p.budget) == chunk
    requires !CanAllocate(p.sched.cache, chunk, p.sched.cfg.watermark) && p1 == PreemptIn(p)
    ensures Shape(p1.sched.cache) && AdmitPhase(p) == AdmitPhase(p1)
  {
    hide Allocate, CanAllocate, PlanChunk, Preempt;
  }

  const START := Pass(BOTH_WAIT, EMPTY_BATCH, 6, false)
  const A_FILLED := Pass(A_RUNS, Batch(["a"], [], [], map["a" := 1]), 5, false)
  const A_EVICTED := Pass(A_WAITS, Batch(["a"], [], ["a"], map["a" := 1]), 5, false)
  const A_REFILLED := Pass(A_RUNS_AGAIN, Batch(["a", "a"], [], ["a"], map["a" := 1]), 4, false)
  const B_FILLED := Pass(BOTH_RUN, LAST_BATCH, 0, false)

  lemma FirstA()
    ensures Shape(FRESH_POOL) && Shape(WITH_A) && AdmitPhase(START) == AdmitPhase(A_FILLED)
  {
    hide Allocate, CanAllocate, PlanChunk, AdmitPhase;
    PlacesA();
    Planned(6);
    assert [1][..1] == [1];
    Grants(START, 1, WITH_A, A_FILLED);
  }

  lemma EvictA()
    ensures Shape(WITH_A) && Shape(A_FREED) && AdmitPhase(A_FILLED) == AdmitPhase(A_EVICTED)
  {
    hide CanAllocate, PlanChunk, AdmitPhase, Free;
    hide Preempt, Shape;
    PreemptsA();
    TooFewForB();
    Planned(5);
    Denies(A_FILLED, 5, A_EVICTED);
  }

  lemma TooFewForB()
    ensures Shape(WITH_A) && Shape(A_FREED) && !CanAllocate(WITH_A, 5, 0.0)
  {
    PoolsFit();
  }

  lemma PreemptsA()
    ensures Shape(WITH_A) && Preempt(A_RUNS) == A_WAITS
  {
    hide Free, Shape;
    FreesOne();
    assert ["a"][..0] == [] && [1] + [] == [1];
    assert Folded(RequestA(0, 0, Prefilling)) == RequestA(0, 1, Preempted);
    assert Preempt(A_RUNS).reqs == A_WAITS.reqs;
  }

  lemma SecondA()
    ensures Shape(A_FREED) && Shape(WITH_A_AGAIN) && AdmitPhase(A_EVICTED) == AdmitPhase(A_REFILLED)
  {
    hide Allocate, CanAllocate, PlanChunk, AdmitPhase;
    PlacesAAgain();
    Planned(5);
    assert [1][..1] == [1];
    Grants(A_EVICTED, 1, WITH_A_AGAIN, A_REFILLED);
  }

  lemma ThenB()
    ensures Shape(WITH_A_AGAIN) && Shape(WITH_BOTH) && AdmitPhase(A_REFILLED) == B_FILLED
  {
    hide Allocate, CanAllocate, PlanChunk, AdmitPhase;
    PlacesB();
    Planned(4);
    assert [1, 2, 3, 4, 5][..4] == [1, 2, 3, 4];
    Grants(A_REFILLED, 4, WITH_BOTH, B_FILLED);
    Ends(B_FILLED);
  }

  lemma Ends(p: Pass)
    requires Shape(p.sched.cache)
    ensures p.budget <= 0 ==> AdmitPhase(p) == p
  {
  }

  lemma PassIs()
    ensures Shape(FRESH_POOL) && Schedule(BOTH_WAIT) == B_FILLED
  {
    hide AdmitPhase;
    FirstA();
    EvictA();
    SecondA();
    ThenB();
  }

  // ----- the step -----

  /** After the prefills: the second prefill of a finds nothing left to do. */
  const PREFILLED := Stage(WITH_BOTH, RequestA(0, 1, Running).(prefillOffset := 1),
    RequestB(Prefilling).(prefillOffset := 4), [], ["a", "b"])

  lemma PrefillsAll()
    ensures Shape(WITH_BOTH) && PrefillAll(BOTH_RUN, LAST_BATCH.prefill, LAST_BATCH.chunkSizes) == Returned(PREFILLED)
  {
    hide Append;
    PoolsFit();
    hide PrefillOne;
    PrefillsA();
    PrefillsB();
    assert ["a", "a", "b"][1..] == ["a", "b"] && ["a", "b"][1..] == ["b"] && ["b"][1..] == [];
    assert PrefillAll(PREFILLED, [], LAST_BATCH.chunkSizes) == Returned(PREFILLED);
    assert PrefillAll(A_PREFILLED, ["b"], LAST_BATCH.chunkSizes) == Returned(PREFILLED);
    assert PrefillAll(A_PREFILLED, ["a", "b"], LAST_BATCH.chunkSizes) == Returned(PREFILLED);
  }

  const A_PREFILLED := Stage(WITH_BOTH, RequestA(0, 1, Running).(prefillOffset := 1), RequestB(Prefilling), [],
    ["a", "b"])

  lemma PrefillsA()
    ensures Shape(WITH_BOTH) && PrefillOne(BOTH_RUN, "a", 1) == Returned(A_PREFILLED)
    ensures PrefillOne(A_PREFILLED, "a", 1) == Returned(A_PREFILLED)
  {
    hide Append;
    PoolsFit();
    assert CoverPrompt(BOTH_RUN, "a", 0, 1) == Returned(BOTH_RUN);
    assert PrefillOne(BOTH_RUN, "a", 1).sched.reqs == A_PREFILLED.reqs;
    assert PrefillOne(A_PREFILLED, "a", 1).sched.reqs == A_PREFILLED.reqs;
  }

  lemma PrefillsB()
    ensures Shape(WITH_BOTH) && PrefillOne(A_PREFILLED, "b", 4) == Returned(PREFILLED)
  {
    hide Append;
    PoolsFit();
    assert CoverPrompt(A_PREFILLED, "b", 0, 4) == Returned(A_PREFILLED);
    assert PrefillOne(A_PREFILLED, "b", 4).sched.reqs == PREFILLED.reqs;
  }

  const CHOICES := [Choice(7, false), Choice(8, false)]

  function Written(a: Block, tokens: seq<Token>, clock: int): Cache {
    Pool([a, Block(1, 4, None, 2)], [Slots([], tokens), Slots([], [1, 2, 3, 4])], [],
      map["a" := Table([0], |tokens|, 0), "b" := Table([1], 4, 0)], clock)
  }

  function Given(cache: Cache, output: seq<Token>): Sched {
    Stage(cache, RequestA(0, 1, Running).(prefillOffset := 1, output := output, generated := output),
      RequestB(Prefilling).(prefillOffset := 4), [], ["a", "b"])
  }

  lemma Writes(used: Block, tokens: seq<Token>, clock: int, tok: Token)
    requires used.refCount == 1 && 0 < |tokens| < 4
    ensures Shape(Written(used, tokens, clock))
    ensures Append(Written(used, tokens, clock), "a", tok)
         == Done(Written(used.(numTokens := used.numTokens + 1, lastUsed := clock), tokens + [tok], clock + 1))
  {
    var c := Written(used, tokens, clock);
    assert |tokens| % 4 != 0;
    assert WriteLast(c, "a", tok).tables == Written(used, tokens + [tok], clock).tables;
  }

  lemma Serves(used: Block, tokens: seq<Token>, clock: int, output: seq<Token>, tok: Token)
    requires used.refCount == 1 && 0 < |tokens| < 4 && |output| < 2
    ensures Shape(Written(used, tokens, clock))
    ensures var next := used.(numTokens := used.numTokens + 1, lastUsed := clock);
      ServeOne(Given(Written(used, tokens, clock), output), "a", Choice(tok, false))
      == Returned(Given(Written(next, tokens + [tok], clock + 1), output + [tok]))
  {
    hide Append;
    var s := Given(Written(used, tokens, clock), output);
    Writes(used, tokens, clock, tok);
    assert Emitted(s, "a", tok) == Given(Written(used, tokens, clock), output + [tok]);
  }

  lemma ServesTwice()
    ensures Shape(WITH_BOTH)
    ensures var r := ServeAll(PREFILLED, ["a", "a"], CHOICES);
      r.Returned? && "a" in r.sched.reqs && r.sched.reqs["a"].output == [7, 8]
  {
    hide ServeOne;
    var once, twice := Block(1, 1, None, 1), Block(1, 2, None, 3);
    assert WITH_BOTH == Written(once, [1], 3) && PREFILLED == Given(Written(once, [1], 3), []);
    Serves(once, [1], 3, [], 7);
    Serves(twice, [1] + [7], 4, [] + [7], 8);
    ServesTwo(PREFILLED, Given(Written(twice, [1] + [7], 4), [] + [7]), "a", Choice(7, false), Choice(8, false));
  }

  lemma ServeNext(s: Sched, id: SeqId, ids: seq<SeqId>, choice: Choice, choices: seq<Choice>)
    requires Shape(s.cache) && ServeOne(s, id, choice).Returned?
    ensures ServeAll(s, [id] + ids, [choice] + choices) == ServeAll(ServeOne(s, id, choice).sched, ids, choices)
  {
    hide ServeOne;
    assert ([id] + ids)[1..] == ids && ([choice] + choices)[1..] == choices;
  }

  lemma ServesTwo(s: Sched, s1: Sched, id: SeqId, x: Choice, y: Choice)
    requires Shape(s.cache) && ServeOne(s, id, x) == Returned(s1)
    ensures Shape(s1.cache)
    ensures ServeOne(s1, id, y).Returned? ==> ServeAll(s, [id, id], [x, y]) == ServeOne(s1, id, y)
  {
    hide ServeOne, ServeAll, Shape;
    assert [id] + [id] == [id, id] && [id] + [] == [id];
    assert [x] + [y] == [x, y] && [y] + [] == [y];
    ServeNext(s, id, [id], x, [y]);
    if ServeOne(s1, id, y).Returned? {
      ServeNext(s1, id, [], y, []);
      ServeNobody(ServeOne(s1, id, y).sched);
    }
  }

  lemma ServeNobody(s: Sched)
    requires Shape(s.cache)
    ensures ServeAll(s, [], []) == Returned(s)
  {
  }

  lemma ReadyTwice()
    ensures Ready(PREFILLED, LAST_BATCH.decode, []) + Ready(PREFILLED, LAST_BATCH.prefill, LAST_BATCH.decode)
         == ["a", "a"]
  {
    assert ["a", "a", "b"][1..] == ["a", "b"] && ["a", "b"][1..] == ["b"] && ["b"][1..] == [];
    assert Ready(PREFILLED, ["b"], []) == [];
    assert Ready(PREFILLED, ["a", "b"], []) == ["a"];
  }

  lemma StepIs()
    ensures Shape(FRESH_POOL)
    ensures var r := Step(BOTH_WAIT, CHOICES);
      r.Returned? && "a" in r.sched.reqs && r.sched.reqs["a"].output == [7, 8]
  {
    hide Schedule, PrefillAll, ServeAll, Ready;
    PassIs();
    PrefillsAll();
    ReadyTwice();
    ServesTwice();
  }

  /** Two requests submitted to a new scheduler and one step: the first request is given two tokens. */
  lemma ServedTwiceShows()
    ensures var s := NewScheduler(LIMITS, Fresh(2, 4, false));
      var run := [Submit("a", [1], 3), Submit("b", [1, 2, 3, 4, 5], 3), Tick(CHOICES)];
      && Shape(s.cache) && LegalRun(s, run)
      && var p := Play(s, run); p.clean && "a" in p.sched.reqs && p.sched.reqs["a"].output == [7, 8]
  {
    hide Step;
    StepIs();
    var s := NewScheduler(LIMITS, Fresh(2, 4, false));
    assert Fresh(2, 4, false) == FRESH_POOL;
    var submit, next := Submit("a", [1], 3), Submit("b", [1, 2, 3, 4, 5], 3);
    var s1 := Exec(s, submit).sched;
    assert s1.waiting == ["a"];
    assert Exec(s1, next).sched == BOTH_WAIT;
    PlaysThree(s, s1, BOTH_WAIT, submit, next, Tick(CHOICES));
  }

  lemma PlaysThree(s: Sched, s1: Sched, s2: Sched, a: Event, b: Event, c: Event)
    requires Shape(s.cache) && Legal(s, a) && Exec(s, a) == Returned(s1)
    requires Legal(s1, b) && Exec(s1, b) == Returned(s2) && Legal(s2, c) && Exec(s2, c).Returned?
    ensures LegalRun(s, [a, b, c]) && Play(s, [a, b, c]) == Played(Exec(s2, c).sched, true)
  {
    hide Exec, Legal;
    assert [a, b, c][1..] == [b, c] && [b, c][1..] == [c] && [c][1..] == [];
    assert Play(s2, [c]) == Played(Exec(s2, c).sched, true);
    assert Play(s1, [b, c]) == Played(Exec(s2, c).sched, true);
    assert LegalRun(s2, [c]);
    assert LegalRun(s1, [b, c]);
  }
}
