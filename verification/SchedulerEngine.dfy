/** The engine step and whole runs of the engine. */
module SchedulerEngine {
  import opened Prelude
  import opened BlockPool
  import opened BlockPoolInvariant
  import opened BlockPoolAppend
  import opened BlockPoolFork
  import opened SchedulerModel
  import opened SchedulerInvariant
  import opened SchedulerSteps
  import opened SchedulerPass

  // ----- covering a chunk of the prompt -----

  lemma TableLength(c: Cache, id: SeqId)
    requires Inv(c)
    ensures id in c.tables <==> id in View(c)
    ensures id in c.tables ==> c.tables[id].numTokens == |View(c)[id]|
  {
  }

  /** Growing a running request's table keeps the scheduler sound, whatever is written. */
  lemma GrownSound(s: Sched, id: SeqId, cache: Cache, toks: seq<Token>)
    requires Sound(s) && id in View(s.cache)
    requires Inv(cache) && Limits(s.cache, cache) && View(cache) == View(s.cache)[id := toks]
    ensures Sound(s.(cache := cache))
  {
    var s' := s.(cache := cache);
    forall x ensures Places(s', x) == Places(s, x) {
    }
    assert View(cache).Keys == View(s.cache).Keys;
  }

  lemma {:induction false} CoverSound(s: Sched, id: SeqId, i: nat, end: nat)
    requires Sound(s) && end <= |Req(s, id).prompt|
    ensures var r := CoverPrompt(s, id, i, end);
      Sound(r.sched) && r.sched == s.(cache := r.sched.cache)
    ensures i < end && id !in View(s.cache) ==> CoverPrompt(s, id, i, end).Raised?
    decreases end - i
  {
    hide Append, View, Conserved, TablesAreRunning, WaitingReset, HistoriesOk, QueueLimits;
    hide FreeOk, RefOk, IndexOk, HashOk, TablesOk;
    TableLength(s.cache, id);
    if i < end && id in s.cache.tables {
      if i < s.cache.tables[id].numTokens {
        CoverSound(s, id, i + 1, end);
      } else {
        var tok := Req(s, id).prompt[i];
        AppendKeeps(s.cache, id, tok);
        match Append(s.cache, id, tok)
        case Done(cache) =>
          GrownSound(s, id, cache, View(s.cache)[id] + [tok]);
          CoverSound(s.(cache := cache), id, i + 1, end);
        case _ =>
      }
    }
  }

  /** A table that holds the prompt up to n is extended to hold it up to `end`. */
  lemma {:induction false} CoverContent(s: Sched, id: SeqId, i: nat, end: nat, n: nat)
    requires Inv(s.cache) && id in View(s.cache)
    requires i <= n <= |Req(s, id).prompt| && end <= |Req(s, id).prompt|
    requires View(s.cache)[id] == Req(s, id).prompt[..n]
    ensures var r := CoverPrompt(s, id, i, end);
      r.Returned? ==>
        View(r.sched.cache)
        == View(s.cache)[id := Req(s, id).prompt[..Max(n, if i < end then end else n)]]
    decreases end - i
  {
    hide Append, FreeOk, RefOk, IndexOk, HashOk, TablesOk;
    var prompt := Req(s, id).prompt;
    TableLength(s.cache, id);
    if i >= end {
      assert View(s.cache)[id := prompt[..n]] == View(s.cache);
    } else if i < n {
      CoverContent(s, id, i + 1, end, n);
    } else {
      AppendKeeps(s.cache, id, prompt[i]);
      match Append(s.cache, id, prompt[i])
      case Done(cache) =>
        assert prompt[..i] + [prompt[i]] == prompt[..i + 1];
        CoverContent(s.(cache := cache), id, i + 1, end, i + 1);
        Overwrite(View(cache), View(s.cache), id, prompt[..i + 1], prompt[..end]);
      case _ =>
    }
  }

  // ----- prefill -----

  lemma AdvanceSound(s: Sched, id: SeqId, chunk: nat)
    requires Sound(s) && id in s.reqs && id !in s.waiting
    ensures Sound(AdvancePrefill(s, id, chunk))
  {
    var s' := AdvancePrefill(s, id, chunk);
    forall x ensures Places(s', x) == Places(s, x) {
    }
    forall x | x in s'.reqs ensures HistoryOk(s'.reqs[x]) {
      assert HistoryOk(s.reqs[x]);
    }
  }

  lemma PrefillOneSound(s: Sched, id: SeqId, chunk: nat)
    requires Sound(s) && id in s.reqs && chunk > 0
    ensures var r := PrefillOne(s, id, chunk);
      Sound(r.sched) && r.sched == s.(cache := r.sched.cache, reqs := r.sched.reqs)
      && r.sched.reqs.Keys == s.reqs.Keys
  {
    hide CoverPrompt, View, FreeOk, RefOk, IndexOk, HashOk, TablesOk, Conserved, TablesAreRunning, WaitingReset;
    hide QueueLimits;
    NotWaiting(s, id);
    var q := Req(s, id);
    CoverSound(s, id, q.prefillOffset, Min(|q.prompt|, q.prefillOffset + chunk));
    assert HistoryOk(s.reqs[id]);
    match CoverPrompt(s, id, q.prefillOffset, Min(|q.prompt|, q.prefillOffset + chunk))
    case Raised(s1) =>
    case Returned(s1) =>
      NotWaiting(s, id);
      AdvanceSound(s1, id, chunk);
  }

  /** A running request is not waiting, and a waiting one has nothing of its prompt done. */
  lemma NotWaiting(s: Sched, id: SeqId)
    requires Sound(s)
    ensures id in View(s.cache) ==> id !in s.waiting && id in s.reqs
    ensures id in s.waiting ==>
      id !in View(s.cache) && Req(s, id).prefillOffset == 0 && |Req(s, id).prompt| > 0
  {
    RunningOnce(s, id);
  }

  /** The table of a request and its offset meet again after its chunk is prefilled. */
  lemma PrefillOneInStep(s: Sched, id: SeqId, chunk: nat)
    requires Inv(s.cache) && id in s.reqs && chunk > 0
    requires InStep(s, id) || JustAdmitted(s, id, chunk)
    ensures var r := PrefillOne(s, id, chunk);
      r.Returned? ==> InStep(r.sched, id)
    ensures var r := PrefillOne(s, id, chunk);
      r.Returned? ==> View(r.sched.cache) == View(s.cache)[id := View(r.sched.cache)[id]]
  {
    hide CoverPrompt, FreeOk, RefOk, IndexOk, HashOk, TablesOk, View;
    var q := Req(s, id);
    var end := Min(|q.prompt|, q.prefillOffset + chunk);
    CoverNothing(s, id, q.prefillOffset, end);
    if q.prefillOffset < end {
      assert q.output == [] && View(s.cache)[id] == q.prompt[..|View(s.cache)[id]|];
      CoverContent(s, id, q.prefillOffset, end, |View(s.cache)[id]|);
    }
    CoverOnlyCache(s, id, q.prefillOffset, end);
  }

  lemma CoverNothing(s: Sched, id: SeqId, i: nat, end: nat)
    requires Shape(s.cache) && end <= |Req(s, id).prompt|
    ensures i >= end ==> CoverPrompt(s, id, i, end) == Returned(s)
  {
  }

  lemma {:induction false} CoverOnlyCache(s: Sched, id: SeqId, i: nat, end: nat)
    requires Shape(s.cache) && end <= |Req(s, id).prompt|
    ensures var r := CoverPrompt(s, id, i, end); r.sched == s.(cache := r.sched.cache)
    decreases end - i
  {
    hide Append;
    if i < end && id in s.cache.tables {
      if i < s.cache.tables[id].numTokens {
        CoverOnlyCache(s, id, i + 1, end);
      } else {
        match Append(s.cache, id, Req(s, id).prompt[i])
        case Done(cache) => CoverOnlyCache(s.(cache := cache), id, i + 1, end);
        case _ =>
      }
    }
  }

  lemma PrefillOneRequests(s: Sched, id: SeqId, chunk: nat)
    requires Shape(s.cache) && id in s.reqs && PrefillOne(s, id, chunk).Returned?
    ensures var s' := PrefillOne(s, id, chunk).sched;
      && s' == s.(cache := s'.cache, reqs := s'.reqs) && s'.reqs.Keys == s.reqs.Keys
      && (forall x | x != id :: Req(s', x) == Req(s, x))
      && Req(s', id).(prefillOffset := 0, state := Running) == Req(s, id).(prefillOffset := 0, state := Running)
  {
    hide CoverPrompt;
    var q := Req(s, id);
    CoverOnlyCache(s, id, q.prefillOffset, Min(|q.prompt|, q.prefillOffset + chunk));
  }

  /** What a request of another id sees of a step that concerns id. */
  ghost predicate OnlyFor(s: Sched, s': Sched, id: SeqId) {
    && s'.running == s.running && s'.reqs.Keys == s.reqs.Keys
    && (forall x | x != id :: Req(s', x) == Req(s, x))
    && (forall x | x != id && x in View(s.cache) :: x in View(s'.cache) && View(s'.cache)[x] == View(s.cache)[x])
  }

  lemma PrefillOneOnlyFor(s: Sched, id: SeqId, chunk: nat)
    requires Sound(s) && id in s.reqs && chunk > 0 && PrefillOne(s, id, chunk).Returned?
    requires id in s.running ==> InStep(s, id) || JustAdmitted(s, id, chunk)
    ensures OnlyFor(s, PrefillOne(s, id, chunk).sched, id)
  {
    hide PrefillOne, View, FreeOk, RefOk, IndexOk, HashOk, TablesOk, Conserved, WaitingReset, HistoriesOk, QueueLimits;
    PrefillOneRequests(s, id, chunk);
    if id in s.running {
      PrefillOneInStep(s, id, chunk);
    } else {
      PrefillOneElsewhere(s, id, chunk);
    }
  }

  lemma PrefillOneElsewhere(s: Sched, id: SeqId, chunk: nat)
    requires Sound(s) && id in s.reqs && id !in s.running && PrefillOne(s, id, chunk).Returned?
    ensures View(PrefillOne(s, id, chunk).sched.cache) == View(s.cache)
  {
    hide CoverPrompt, View, FreeOk, RefOk, IndexOk, HashOk, TablesOk, Conserved, WaitingReset, HistoriesOk, QueueLimits;
    var q := Req(s, id);
    CoverSound(s, id, q.prefillOffset, Min(|q.prompt|, q.prefillOffset + chunk));
    CoverNothing(s, id, q.prefillOffset, Min(|q.prompt|, q.prefillOffset + chunk));
  }

  lemma LoadedAfter(s: Sched, s': Sched, id: SeqId, newly: map<SeqId, nat>)
    requires OnlyFor(s, s', id) && Loaded(s, newly) && (id in s.running ==> InStep(s', id))
    ensures Loaded(s', newly - {id})
  {
    hide View;
    forall x | x in s'.running
      ensures if x in newly - {id} then JustAdmitted(s', x, (newly - {id})[x]) else InStep(s', x)
    {
      if x != id {
        assert Req(s', x) == Req(s, x);
      }
    }
  }

  lemma LengthsAfter(s: Sched, s': Sched, id: SeqId)
    requires OnlyFor(s, s', id) && LengthsOk(s) && id in s.reqs
    requires Req(s', id).(prefillOffset := 0, state := Running) == Req(s, id).(prefillOffset := 0, state := Running)
    ensures LengthsOk(s')
  {
    hide View;
    forall x | x in s'.reqs ensures Bounded(s'.reqs[x]) {
      assert Bounded(s.reqs[x]) && Req(s', x) == s'.reqs[x];
    }
  }

  lemma PrefillOneLoaded(s: Sched, id: SeqId, chunk: nat, newly: map<SeqId, nat>)
    requires Sound(s) && id in s.reqs && chunk > 0
    requires Loaded(s, newly) && LengthsOk(s) && (id in newly ==> newly[id] == chunk)
    ensures var r := PrefillOne(s, id, chunk);
      r.Returned? ==> Loaded(r.sched, newly - {id}) && LengthsOk(r.sched)
  {
    hide PrefillOne, View, FreeOk, RefOk, IndexOk, HashOk, TablesOk, Conserved, WaitingReset, HistoriesOk, QueueLimits;
    hide InStep, JustAdmitted, LengthsOk, TablesAreRunning, OnlyFor;
    if PrefillOne(s, id, chunk).Returned? {
      var s' := PrefillOne(s, id, chunk).sched;
      PrefillOneOnlyFor(s, id, chunk);
      PrefillOneRequests(s, id, chunk);
      if id in s.running {
        PrefillOneInStep(s, id, chunk);
      }
      LoadedAfter(s, s', id, newly);
      LengthsAfter(s, s', id);
    }
  }

  lemma {:induction false} PrefillAllKeeps(s: Sched, ids: seq<SeqId>, chunkSizes: map<SeqId, nat>,
      newly: map<SeqId, nat>, normal: bool)
    requires Sound(s)
    requires forall id | id in ids :: id in s.reqs && id in chunkSizes && chunkSizes[id] > 0
    requires normal ==> Loaded(s, newly) && LengthsOk(s)
    requires forall id | id in newly :: id in ids && id in chunkSizes && chunkSizes[id] == newly[id]
    ensures var r := PrefillAll(s, ids, chunkSizes);
      && Sound(r.sched) && r.sched.reqs.Keys == s.reqs.Keys && r.sched.cfg == s.cfg
      && (r.Returned? && normal ==> Settled(r.sched) && LengthsOk(r.sched))
    decreases |ids|
  {
    if ids != [] {
      var id := ids[0];
      var chunk := chunkSizes[id];
      PrefillOneSound(s, id, chunk);
      if normal {
        PrefillOneLoaded(s, id, chunk, newly);
      }
      match PrefillOne(s, id, chunk)
      case Raised(s1) =>
      case Returned(s1) =>
        assert forall x | x in newly - {id} :: x in ids[1..];
        PrefillAllKeeps(s1, ids[1..], chunkSizes, newly - {id}, normal);
    }
  }

  // ----- serving -----

  lemma EmittedSound(s: Sched, id: SeqId, tok: Token)
    requires Sound(s) && id in s.reqs && id !in s.waiting
    ensures Sound(Emitted(s, id, tok))
  {
    hide View, FreeOk, RefOk, IndexOk, HashOk, TablesOk;
    var s' := Emitted(s, id, tok);
    forall x ensures Places(s', x) == Places(s, x) {
    }
    forall x | x in s'.reqs ensures HistoryOk(s'.reqs[x]) {
      assert HistoryOk(s.reqs[x]);
      if x == id {
        var r := s.reqs[id];
        assert r.prompt + (r.output + [tok]) == (r.prompt + r.output) + [tok];
        assert r.original + (r.generated + [tok]) == (r.original + r.generated) + [tok];
      }
    }
  }

  lemma FinishConserves(s: Sched, id: SeqId)
    requires Conserved(s) && Shape(s.cache) && id in s.running
    ensures Conserved(Finish(s, id))
    ensures forall x :: x in Finish(s, id).running <==> x in s.running && x != id
    ensures |Finish(s, id).running| == |s.running| - 1
  {
    hide Free;
    var s' := Finish(s, id);
    RunningOnce(s, id);
    WithoutCounts(s.running, id);
    WithoutMembers(s.running, id);
    forall x ensures Places(s', x) == if x in s'.reqs then 1 else 0 {
      assert Places(s, x) == if x in s.reqs then 1 else 0;
    }
  }

  lemma FinishSound(s: Sched, id: SeqId)
    requires Sound(s) && id in s.running
    ensures Sound(Finish(s, id)) && View(Finish(s, id).cache) == View(s.cache) - {id}
  {
    hide Free, View, FreeOk, RefOk, IndexOk, HashOk, TablesOk;
    var s' := Finish(s, id);
    RunningOnce(s, id);
    FinishConserves(s, id);
    FreeKeeps(s.cache, id);
    forall x | x in s'.reqs ensures HistoryOk(s'.reqs[x]) {
      assert HistoryOk(s.reqs[x]);
    }
  }

  /** Where serving one request leads: a grown table, and the request finished or not. */
  lemma ServeCases(s: Sched, id: SeqId, choice: Choice)
    requires Sound(s) && id in s.reqs && id !in s.waiting
    ensures var s1 := Emitted(s, id, choice.token);
      var a := Append(s.cache, id, choice.token);
      && Sound(s1)
      && (a.Done? <==> ServeOne(s, id, choice).Returned?)
      && (!a.Done? ==> ServeOne(s, id, choice) == Raised(s1))
      && (a.Done? ==>
            var s2 := s1.(cache := a.cache);
            && Sound(s2) && id in s2.running && View(a.cache) == View(s.cache)[id := View(s.cache)[id] + [choice.token]]
            && ServeOne(s, id, choice) == Returned(
                 if choice.stop || |Req(s2, id).output| >= Req(s2, id).maxTokens then Finish(s2, id) else s2))
  {
    hide Append, View, FreeOk, RefOk, IndexOk, HashOk, TablesOk, Conserved, WaitingReset, HistoriesOk, QueueLimits;
    EmittedSound(s, id, choice.token);
    AppendKeeps(s.cache, id, choice.token);
    TableLength(s.cache, id);
    var a := Append(s.cache, id, choice.token);
    if a.Done? {
      GrownSound(Emitted(s, id, choice.token), id, a.cache, View(s.cache)[id] + [choice.token]);
    }
  }

  lemma ServeOneSound(s: Sched, id: SeqId, choice: Choice)
    requires Sound(s) && id in s.reqs && Req(s, id).PrefillDone()
    ensures var r := ServeOne(s, id, choice);
      Sound(r.sched) && r.sched.reqs.Keys == s.reqs.Keys && r.sched.cfg == s.cfg
    ensures var r := ServeOne(s, id, choice);
      forall x :: Req(r.sched, x).prompt == Req(s, x).prompt && Req(r.sched, x).prefillOffset == Req(s, x).prefillOffset
  {
    hide ServeOne, Append, View, FreeOk, RefOk, IndexOk, HashOk, TablesOk, Conserved, WaitingReset, HistoriesOk;
    hide QueueLimits;
    NotWaiting(s, id);
    ServeCases(s, id, choice);
    var a := Append(s.cache, id, choice.token);
    if a.Done? {
      FinishSound(Emitted(s, id, choice.token).(cache := a.cache), id);
    }
  }

  lemma ServedInStep(s: Sched, s2: Sched, id: SeqId, tok: Token)
    requires InStep(s, id) && Req(s, id).PrefillDone()
    requires Req(s2, id) == Req(Emitted(s, id, tok), id)
    requires View(s2.cache) == View(s.cache)[id := View(s.cache)[id] + [tok]]
    ensures InStep(s2, id)
  {
    hide View;
    var r := Req(s, id);
    assert r.prompt[..r.prefillOffset] + r.output + [tok] == r.prompt[..r.prefillOffset] + (r.output + [tok]);
  }

  lemma ServeOneSettled(s: Sched, id: SeqId, choice: Choice)
    requires Sound(s) && id in s.reqs && Req(s, id).PrefillDone()
    requires Settled(s) && LengthsOk(s)
    ensures var r := ServeOne(s, id, choice);
      r.Returned? ==> Settled(r.sched) && LengthsOk(r.sched)
  {
    hide ServeOne, Append, View, FreeOk, RefOk, IndexOk, HashOk, TablesOk, Conserved, WaitingReset, HistoriesOk;
    hide QueueLimits;
    NotWaiting(s, id);
    ServeCases(s, id, choice);
    var a := Append(s.cache, id, choice.token);
    if a.Done? {
      var s2 := Emitted(s, id, choice.token).(cache := a.cache);
      ServedInStep(s, s2, id, choice.token);
      ServedSettled(s, s2, id, choice.token);
      ServedLengths(s, s2, id);
      if choice.stop || |Req(s2, id).output| >= Req(s2, id).maxTokens {
        FinishConserves(s2, id);
        FinishSound(s2, id);
        FinishSettled(s2, id);
      }
    }
  }

  lemma ServedSettled(s: Sched, s2: Sched, id: SeqId, tok: Token)
    requires Settled(s) && InStep(s2, id) && s2.running == s.running
    requires forall x | x != id :: Req(s2, x) == Req(s, x)
    requires id in View(s.cache) && View(s2.cache) == View(s.cache)[id := View(s.cache)[id] + [tok]]
    ensures Settled(s2)
  {
    hide View;
    forall x | x in s2.running ensures InStep(s2, x) {
      assert InStep(s, x);
    }
  }

  lemma ServedLengths(s: Sched, s2: Sched, id: SeqId)
    requires LengthsOk(s) && id in s.reqs && id in s.running && s2.running == s.running
    requires s2.reqs.Keys == s.reqs.Keys && forall x | x != id :: Req(s2, x) == Req(s, x)
    requires var r, r2 := Req(s, id), Req(s2, id);
      && r2.prompt == r.prompt && r2.original == r.original && r2.preemptions == r.preemptions
      && r2.maxTokens == r.maxTokens && |r2.output| == |r.output| + 1
    ensures forall x | x in s2.reqs :: Bounded(s2.reqs[x])
    ensures forall x | x in s2.running && x != id :: |Req(s2, x).output| < Req(s2, x).maxTokens
  {
    forall x | x in s2.reqs ensures Bounded(s2.reqs[x]) {
      assert Bounded(s.reqs[x]) && Req(s2, x) == s2.reqs[x] && Req(s, x) == s.reqs[x];
    }
  }

  lemma FinishSettled(s: Sched, id: SeqId)
    requires Shape(s.cache) && Settled(s) && id in s.reqs
    requires forall x | x in s.reqs :: Bounded(s.reqs[x])
    requires forall x | x in s.running && x != id :: |Req(s, x).output| < Req(s, x).maxTokens
    requires View(Finish(s, id).cache) == View(s.cache) - {id}
    requires forall x :: x in Finish(s, id).running <==> x in s.running && x != id
    ensures Settled(Finish(s, id)) && LengthsOk(Finish(s, id))
  {
    hide View, Free, Without;
    var s' := Finish(s, id);
    forall x | x in s'.running ensures InStep(s', x) {
      assert InStep(s, x) && Req(s', x) == Req(s, x);
    }
  }

  lemma {:induction false} ServeAllKeeps(s: Sched, ids: seq<SeqId>, choices: seq<Choice>, normal: bool)
    requires Sound(s) && (normal ==> Settled(s) && LengthsOk(s))
    requires forall id | id in ids :: id in s.reqs && Req(s, id).PrefillDone()
    ensures var r := ServeAll(s, ids, choices);
      Sound(r.sched) && (r.Returned? && normal ==> Settled(r.sched) && LengthsOk(r.sched))
    decreases |ids|
  {
    hide ServeOne, View, FreeOk, RefOk, IndexOk, HashOk, TablesOk, Conserved, WaitingReset, HistoriesOk, QueueLimits;
    if ids != [] && choices != [] {
      ServeOneSound(s, ids[0], choices[0]);
      if normal {
        ServeOneSettled(s, ids[0], choices[0]);
      }
      match ServeOne(s, ids[0], choices[0])
      case Raised(s1) =>
      case Returned(s1) => ServeAllKeeps(s1, ids[1..], choices[1..], normal);
    }
  }

  lemma {:induction false} ReadyAreDone(s: Sched, ids: seq<SeqId>, except: seq<SeqId>)
    ensures forall id | id in Ready(s, ids, except) :: id in ids && Req(s, id).PrefillDone()
  {
    if ids != [] {
      ReadyAreDone(s, ids[1..], except);
    }
  }

  /** One engine step, returned from or cut short, leaves a sound scheduler. A step that
      returns from a settled state ends in one: every running request's table holds exactly
      the prefilled part of its prompt and its generated tokens. */
  lemma StepKeeps(s: Sched, choices: seq<Choice>, normal: bool)
    requires Sound(s) && (normal ==> Settled(s) && LengthsOk(s))
    ensures var r := Step(s, choices);
      Sound(r.sched) && (r.Returned? && normal ==> Settled(r.sched) && LengthsOk(r.sched))
  {
    hide Schedule, PrefillAll, ServeAll, View, FreeOk, RefOk, IndexOk, HashOk, TablesOk;
    hide Conserved, WaitingReset, HistoriesOk, QueueLimits, LengthsOk;
    var newly := ScheduleKeeps(s, normal);
    var p := Schedule(s);
    PrefillAllKeeps(p.sched, p.batch.prefill, p.batch.chunkSizes, newly, normal);
    match PrefillAll(p.sched, p.batch.prefill, p.batch.chunkSizes)
    case Raised(s1) =>
    case Returned(s1) =>
      ReadyAreDone(s1, p.batch.decode, []);
      ReadyAreDone(s1, p.batch.prefill, p.batch.decode);
      ServeAllKeeps(s1, Ready(s1, p.batch.decode, []) + Ready(s1, p.batch.prefill, p.batch.decode), choices, normal);
  }

  // ----- the queue operations -----

  lemma AddConserves(s: Sched, id: SeqId, prompt: seq<Token>, maxTokens: nat)
    requires Conserved(s) && id !in s.reqs && AddRequest(s, id, prompt, maxTokens).Accepted?
    ensures Conserved(AddRequest(s, id, prompt, maxTokens).sched) && id !in s.running
  {
    var s' := AddRequest(s, id, prompt, maxTokens).sched;
    assert Places(s, id) == 0;
    RunningOnce(s, id);
    forall x ensures Places(s', x) == if x in s'.reqs then 1 else 0 {
      assert Places(s, x) == if x in s.reqs then 1 else 0;
    }
  }

  lemma AddSound(s: Sched, id: SeqId, prompt: seq<Token>, maxTokens: nat)
    requires Sound(s) && id !in s.reqs && prompt != [] && maxTokens >= 1
    requires AddRequest(s, id, prompt, maxTokens).Accepted?
    ensures Sound(AddRequest(s, id, prompt, maxTokens).sched)
  {
    hide View, FreeOk, RefOk, IndexOk, HashOk, TablesOk, Conserved;
    var s' := AddRequest(s, id, prompt, maxTokens).sched;
    AddConserves(s, id, prompt, maxTokens);
    forall x | x in s'.waiting ensures Req(s', x).prefillOffset == 0 && Req(s', x).output == [] {
      assert x == id || x in s.waiting;
    }
    forall x | x in s'.reqs ensures HistoryOk(s'.reqs[x]) {
      assert x != id ==> HistoryOk(s.reqs[x]);
    }
  }

  lemma AddSettled(s: Sched, id: SeqId, prompt: seq<Token>, maxTokens: nat)
    requires Settled(s) && LengthsOk(s) && id !in s.running
    requires AddRequest(s, id, prompt, maxTokens).Accepted?
    ensures var s' := AddRequest(s, id, prompt, maxTokens).sched;
      Settled(s') && LengthsOk(s')
  {
    hide View;
    var s' := AddRequest(s, id, prompt, maxTokens).sched;
    forall x | x in s'.running ensures InStep(s', x) && |Req(s', x).output| < Req(s', x).maxTokens {
      assert x != id && InStep(s, x);
    }
    forall x | x in s'.reqs ensures Bounded(s'.reqs[x]) {
      assert x != id ==> Bounded(s.reqs[x]);
    }
  }

  lemma AddKeeps(s: Sched, id: SeqId, prompt: seq<Token>, maxTokens: nat)
    requires Sound(s) && id !in s.reqs && prompt != [] && maxTokens >= 1
    ensures var r := AddRequest(s, id, prompt, maxTokens);
      r.Accepted? ==> Sound(r.sched) && (Settled(s) && LengthsOk(s) ==> Settled(r.sched) && LengthsOk(r.sched))
  {
    hide View, PoolOk, Settled, LengthsOk, WaitingReset, HistoriesOk, QueueLimits, TablesAreRunning;
    if AddRequest(s, id, prompt, maxTokens).Accepted? {
      AddSound(s, id, prompt, maxTokens);
      AddConserves(s, id, prompt, maxTokens);
      if Settled(s) && LengthsOk(s) {
        AddSettled(s, id, prompt, maxTokens);
      }
    }
  }

  lemma AbortQueues(s: Sched, id: SeqId)
    requires Conserved(s) && Shape(s.cache) && Abort(s, id).Some?
    ensures var s' := Abort(s, id).value;
      && (forall x :: x in s'.running <==> x in s.running && x != id)
      && (forall x :: x in s'.waiting <==> x in s.waiting && x != id)
      && |s'.running| <= |s.running| && |s'.waiting| <= |s.waiting|
      && multiset(s'.waiting) + multiset(s'.running) == multiset(s.waiting) + multiset(s.running) - multiset{id}
      && id in s.reqs && id !in s.aborted
  {
    hide Free, Conserved;
    RunningOnce(s, id);
    if id in s.waiting {
      WithoutCounts(s.waiting, id);
      WithoutMembers(s.waiting, id);
    } else {
      WithoutCounts(s.running, id);
      WithoutMembers(s.running, id);
    }
  }

  lemma AbortConserves(s: Sched, id: SeqId)
    requires Conserved(s) && Shape(s.cache) && Abort(s, id).Some?
    ensures Conserved(Abort(s, id).value)
  {
    hide Free;
    var s' := Abort(s, id).value;
    AbortQueues(s, id);
    AbortIsFree(s, id);
    assert (multiset(s.waiting) + multiset(s.running))[id] >= 1 by { RunningOnce(s, id); }
    forall x ensures Places(s', x) == if x in s'.reqs then 1 else 0 {
      assert Places(s, x) == if x in s.reqs then 1 else 0;
      assert (multiset(s'.waiting) + multiset(s'.running))[x] == multiset(s'.waiting)[x] + multiset(s'.running)[x];
    }
  }

  lemma AbortIsFree(s: Sched, id: SeqId)
    requires Shape(s.cache) && Abort(s, id).Some?
    ensures var s' := Abort(s, id).value;
      && s' == s.(waiting := s'.waiting, running := s'.running, cache := Free(s.cache, id),
                  reqs := s.reqs[id := Req(s, id).(state := Finished)], aborted := s.aborted + {id})
  {
    hide Free;
  }

  lemma AbortKeeps(s: Sched, id: SeqId)
    requires Sound(s)
    ensures var r := Abort(s, id);
      && (r.Some? <==> id in s.waiting || id in s.running)
      && (r.Some? ==> Sound(r.value) && (Settled(s) && LengthsOk(s) ==> Settled(r.value) && LengthsOk(r.value)))
  {
    hide Free, View, FreeOk, RefOk, IndexOk, HashOk, TablesOk, Conserved;
    if Abort(s, id).Some? {
      var s' := Abort(s, id).value;
      RunningOnce(s, id);
      AbortQueues(s, id);
      AbortConserves(s, id);
      AbortIsFree(s, id);
      FreeKeeps(s.cache, id);
      AbortRequests(s, s', id);
      if Settled(s) && LengthsOk(s) {
        AbortSettled(s, s', id);
      }
    }
  }

  lemma AbortRequests(s: Sched, s': Sched, id: SeqId)
    requires HistoriesOk(s) && WaitingReset(s) && id in s.reqs
    requires s'.reqs == s.reqs[id := Req(s, id).(state := Finished)]
    requires forall x :: x in s'.waiting <==> x in s.waiting && x != id
    ensures HistoriesOk(s') && WaitingReset(s')
  {
    forall x | x in s'.reqs ensures HistoryOk(s'.reqs[x]) {
      assert HistoryOk(s.reqs[x]);
    }
  }

  lemma AbortSettled(s: Sched, s': Sched, id: SeqId)
    requires Settled(s) && LengthsOk(s) && id in s.reqs
    requires s'.reqs == s.reqs[id := Req(s, id).(state := Finished)]
    requires forall x :: x in s'.running <==> x in s.running && x != id
    requires View(s'.cache) == View(s.cache) - {id}
    ensures Settled(s') && LengthsOk(s')
  {
    hide View;
    forall x | x in s'.running ensures InStep(s', x) {
      assert InStep(s, x) && Req(s', x) == Req(s, x);
    }
    forall x | x in s'.reqs ensures Bounded(s'.reqs[x]) {
      assert Bounded(s.reqs[x]);
    }
  }
}
