/** Who is served by an engine step and in what order: the line of requests keeps the order in which they
    came, and each request gets the tokens chosen for it and no others. */
module SchedulerOrder {
  import opened Prelude
  import opened BlockPool
  import opened SchedulerModel
  import opened SchedulerInvariant
  import opened SchedulerSteps
  import opened SchedulerPass
  import opened SchedulerEngine
  import opened SchedulerRuns
  import opened SchedulerProgress
  import opened SchedulerRepeats

  /** The line without those who left it. */
  function Keep(q: seq<SeqId>, gone: set<SeqId>): seq<SeqId> {
    if q == [] then [] else (if q[0] in gone then [] else [q[0]]) + Keep(q[1..], gone)
  }

  lemma {:induction false} KeepJoins(a: seq<SeqId>, b: seq<SeqId>, gone: set<SeqId>)
    ensures Keep(a + b, gone) == Keep(a, gone) + Keep(b, gone)
  {
    if a != [] {
      assert (a + b)[1..] == a[1..] + b;
      KeepJoins(a[1..], b, gone);
    } else {
      assert a + b == b;
    }
  }

  lemma {:induction false} KeepTwice(q: seq<SeqId>, gone: set<SeqId>, more: set<SeqId>)
    ensures Keep(Keep(q, gone), more) == Keep(q, gone + more)
  {
    if q != [] {
      var first := if q[0] in gone then [] else [q[0]];
      KeepJoins(first, Keep(q[1..], gone), more);
      KeepTwice(q[1..], gone, more);
    }
  }

  lemma {:induction false} KeepAll(q: seq<SeqId>, gone: set<SeqId>)
    requires forall id | id in q :: id !in gone
    ensures Keep(q, gone) == q
  {
    if q != [] {
      KeepAll(q[1..], gone);
    }
  }

  lemma {:induction false} KeepHas(q: seq<SeqId>, gone: set<SeqId>, id: SeqId)
    ensures id in Keep(q, gone) <==> id in q && id !in gone
  {
    if q != [] {
      KeepHas(q[1..], gone, id);
    }
  }

  lemma {:induction false} WithoutKeeps(q: seq<SeqId>, id: SeqId)
    requires NoDup(q)
    ensures Without(q, id) == Keep(q, {id})
  {
    if q != [] {
      if q[0] == id {
        KeepAll(q[1..], {id});
      } else {
        WithoutKeeps(q[1..], id);
      }
    }
  }

  lemma {:induction false} KeepNoDup(q: seq<SeqId>, gone: set<SeqId>)
    requires NoDup(q)
    ensures NoDup(Keep(q, gone))
  {
    if q != [] {
      KeepNoDup(q[1..], gone);
      KeepHas(q[1..], gone, q[0]);
    }
  }

  // ----- the serving loop -----

  /** The tokens chosen for a request, in order. */
  function Tokens(ids: seq<SeqId>, choices: seq<Choice>, id: SeqId): seq<Token> {
    if ids == [] || choices == [] then []
    else (if ids[0] == id then [choices[0].token] else []) + Tokens(ids[1..], choices[1..], id)
  }

  /** A request that has changed in nothing but its output and history, by the tokens given. */
  ghost predicate Grown(r: Request, r': Request, toks: seq<Token>) {
    && r'.prompt == r.prompt && r'.output == r.output + toks && r'.prefillOffset == r.prefillOffset
    && r'.maxTokens == r.maxTokens && r'.preemptions == r.preemptions
  }

  lemma ServeOneGives(s: Sched, id: SeqId, choice: Choice, x: SeqId)
    requires Shape(s.cache) && ServeOne(s, id, choice).Returned?
    ensures Grown(Req(s, x), Req(ServeOne(s, id, choice).sched, x), if x == id then [choice.token] else [])
  {
    hide Append, Free, Without;
  }

  lemma {:induction false} ServeAllGives(s: Sched, ids: seq<SeqId>, choices: seq<Choice>, x: SeqId)
    requires Shape(s.cache) && ServeAll(s, ids, choices).Returned?
    ensures Grown(Req(s, x), Req(ServeAll(s, ids, choices).sched, x), Tokens(ids, choices, x))
    decreases |ids|
  {
    hide ServeOne, Shape;
    if ids != [] && choices != [] {
      ServeOneGives(s, ids[0], choices[0], x);
      ServeAllGives(ServeOne(s, ids[0], choices[0]).sched, ids[1..], choices[1..], x);
    }
  }

  /** The served request ends when it was told to stop or has all the tokens it may have. */
  lemma ServeOneEnds(s: Sched, id: SeqId, choice: Choice) returns (ended: seq<SeqId>)
    requires Shape(s.cache) && NoDup(s.running)
    ensures var r := ServeOne(s, id, choice);
      && ended == (if r.Returned? && (choice.stop || |Req(r.sched, id).output| >= Req(r.sched, id).maxTokens)
                   then [id] else [])
      && r.sched.finished == s.finished + ended && r.sched.waiting == s.waiting && r.sched.aborted == s.aborted
      && r.sched.running == Keep(s.running, Set(ended))
  {
    hide Append, Free, Shape;
    var r := ServeOne(s, id, choice);
    var done := choice.stop || |Req(r.sched, id).output| >= Req(r.sched, id).maxTokens;
    ended := if r.Returned? && done then [id] else [];
    WithoutKeeps(s.running, id);
    KeepAll(s.running, {});
    assert Set([id]) == {id} && Set([]) == {};
  }

  function Set(ids: seq<SeqId>): set<SeqId> {
    set id | id in ids
  }

  /** After the loop the line has lost just those that ended. */
  lemma {:induction false} ServeAllEnds(s: Sched, ids: seq<SeqId>, choices: seq<Choice>) returns (ended: seq<SeqId>)
    requires Shape(s.cache) && NoDup(s.running)
    ensures var r := ServeAll(s, ids, choices);
      && r.sched.finished == s.finished + ended && r.sched.waiting == s.waiting && r.sched.aborted == s.aborted
      && r.sched.running == Keep(s.running, Set(ended))
      && (forall id | id in ended :: id in ids)
      && (r.Returned? && NoDup(ids) ==>
            forall k :: 0 <= k < |ids| && k < |choices| ==> (ids[k] in ended <==> Ends(r.sched, ids, choices, k)))
    decreases |ids|
  {
    hide ServeOne, Shape, Keep;
    ended := [];
    if ids != [] && choices != [] {
      var first := ServeOneEnds(s, ids[0], choices[0]);
      var s1 := ServeOne(s, ids[0], choices[0]).sched;
      ended := first;
      if ServeOne(s, ids[0], choices[0]).Returned? {
        KeepNoDup(s.running, Set(first));
        var rest := ServeAllEnds(s1, ids[1..], choices[1..]);
        ended := first + rest;
        KeepTwice(s.running, Set(first), Set(rest));
        assert Set(ended) == Set(first) + Set(rest);
        var r := ServeAll(s, ids, choices);
        if r.Returned? && NoDup(ids) {
          forall k | 0 <= k < |ids| && k < |choices| ensures ids[k] in ended <==> Ends(r.sched, ids, choices, k) {
            if k == 0 {
              ServeAllGives(s1, ids[1..], choices[1..], ids[0]);
              NotServedAgain(ids[1..], choices[1..], ids[0]);
            } else {
              assert ids[1..][k - 1] == ids[k];
              assert ids[1..][k - 1] in rest <==> Ends(r.sched, ids[1..], choices[1..], k - 1);
            }
          }
        }
      }
    } else {
      KeepAll(s.running, {});
      assert Set([]) == {};
    }
  }

  ghost predicate Ends(s: Sched, ids: seq<SeqId>, choices: seq<Choice>, k: nat)
    requires k < |ids| && k < |choices|
  {
    choices[k].stop || |Req(s, ids[k]).output| >= Req(s, ids[k]).maxTokens
  }

  lemma {:induction false} NotServedAgain(ids: seq<SeqId>, choices: seq<Choice>, id: SeqId)
    requires id !in ids
    ensures Tokens(ids, choices, id) == []
  {
    if ids != [] && choices != [] {
      NotServedAgain(ids[1..], choices[1..], id);
    }
  }

  // ----- the prefill loop -----

  lemma {:induction false} PrefillAllOthers(s: Sched, ids: seq<SeqId>, chunkSizes: map<SeqId, nat>, id: SeqId)
    requires Shape(s.cache) && PrefillAll(s, ids, chunkSizes).Returned? && id !in ids
    ensures var r, r1 := Req(s, id), Req(PrefillAll(s, ids, chunkSizes).sched, id);
      r1.prompt == r.prompt && r1.prefillOffset == r.prefillOffset
    decreases |ids|
  {
    hide PrefillOne, Shape;
    if ids != [] {
      var chunk := if ids[0] in chunkSizes then chunkSizes[ids[0]] else 0;
      OneAdvanced(s, ids[0], chunk, id);
      PrefillAllOthers(PrefillOne(s, ids[0], chunk).sched, ids[1..], chunkSizes, id);
    }
  }

  /** The prefill loop moves offsets and fills tables, and does nothing else. */
  lemma {:induction false} PrefillAllQueues(s: Sched, ids: seq<SeqId>, chunkSizes: map<SeqId, nat>)
    requires Shape(s.cache)
    ensures var s1 := PrefillAll(s, ids, chunkSizes).sched;
      && s1 == s.(cache := s1.cache, reqs := s1.reqs)
      && forall id :: Whole(s1, id) == Whole(s, id) && Req(s1, id).maxTokens == Req(s, id).maxTokens
    decreases |ids|
  {
    hide CoverPrompt, Shape;
    if ids != [] {
      var id := ids[0];
      var chunk := if id in chunkSizes then chunkSizes[id] else 0;
      var r := Req(s, id);
      CoverOnlyCache(s, id, r.prefillOffset, Min(|r.prompt|, r.prefillOffset + chunk));
      var first := PrefillOne(s, id, chunk);
      if first.Returned? {
        PrefillAllQueues(first.sched, ids[1..], chunkSizes);
        forall x ensures Whole(first.sched, x) == Whole(s, x) && Req(first.sched, x).maxTokens == Req(s, x).maxTokens {
        }
      }
    }
  }

  // ----- a whole step -----

  lemma {:induction false} ReadyHas(s: Sched, ids: seq<SeqId>, except: seq<SeqId>, id: SeqId)
    ensures id in Ready(s, ids, except) <==> id in ids && Remaining(s, id) <= 0 && id !in except
  {
    if ids != [] {
      ReadyHas(s, ids[1..], except, id);
    }
  }

  lemma {:induction false} AllReady(s: Sched, ids: seq<SeqId>)
    requires forall id | id in ids :: Remaining(s, id) <= 0
    ensures Ready(s, ids, []) == ids
  {
    if ids != [] {
      assert ids[0] in ids;
      AllReady(s, ids[1..]);
    }
  }

  /** The pass p over s in which nobody gave way, as far as the loops after it are concerned. */
  ghost predicate CalmPass(s: Sched, p: Pass) {
    && Shape(p.sched.cache) && PassFits(p) && NoDup(p.batch.prefill) && NoDup(p.batch.decode)
    && Line(p.sched) == Line(s) && p.sched.finished == s.finished && NoDup(p.sched.running)
    && (forall id :: Kept(s, p, id))
    && (forall id | id in p.batch.prefill :: Chunk(p.batch, id) > 0)
    && (forall id | id in p.batch.decode :: Remaining(s, id) <= 0)
    && (forall id | id in p.batch.decode || id in p.batch.prefill :: id !in p.sched.waiting)
  }

  ghost predicate Kept(s: Sched, p: Pass, id: SeqId) {
    Untouched(Req(s, id), Req(p.sched, id)) && Whole(p.sched, id) == Whole(s, id)
  }

  /** What a request has left to prefill after the prefill loop. */
  lemma AfterPrefills(s: Sched, p: Pass, id: SeqId)
    requires CalmPass(s, p) && PrefillAll(p.sched, p.batch.prefill, p.batch.chunkSizes).Returned?
    ensures var s1 := PrefillAll(p.sched, p.batch.prefill, p.batch.chunkSizes).sched;
      Remaining(s1, id) == Remaining(s, id) - Chunk(p.batch, id) && Whole(s1, id) == Whole(s, id)
    ensures id in p.batch.prefill ==> Remaining(s, id) > 0
  {
    hide PrefillAll, Occurrences, Shape, NoDup, Product;
    assert Kept(s, p, id);
    PrefillAllQueues(p.sched, p.batch.prefill, p.batch.chunkSizes);
    if id in p.batch.prefill {
      NoDupOccurs(p.batch.prefill);
      OccursIn(p.batch.prefill, id);
      OnceAdvanced(p.sched, p.batch.prefill, p.batch.chunkSizes, id);
    } else {
      PrefillAllOthers(p.sched, p.batch.prefill, p.batch.chunkSizes, id);
    }
  }

  lemma OnceAdvanced(s: Sched, ids: seq<SeqId>, chunkSizes: map<SeqId, nat>, id: SeqId)
    requires Shape(s.cache) && PrefillAll(s, ids, chunkSizes).Returned? && AtMostOnce(ids) && Occurrences(ids, id) > 0
    requires id in chunkSizes && Req(s, id).prefillOffset + chunkSizes[id] <= |Req(s, id).prompt|
    ensures var s1 := PrefillAll(s, ids, chunkSizes).sched; Remaining(s1, id) == Remaining(s, id) - chunkSizes[id]
  {
    hide PrefillAll, Occurrences, Shape;
    AllAdvanced(s, ids, chunkSizes, id);
    ProductNext(chunkSizes[id], 0);
  }

  /** Everything an engine step says of a pass in which nobody gave way. */
  ghost predicate StepServes(s: Sched, b: Batch, choices: seq<Choice>, s': Sched, served: seq<SeqId>,
      ended: seq<SeqId>)
  {
    && b.decode <= served && NoDup(served)
    && (forall id :: id in served <==> id in b.decode || (id in b.prefill && Remaining(s, id) == Chunk(b, id)))
    && (forall id :: Whole(s', id) == Whole(s, id) + Tokens(served, choices, id))
    && (forall id :: Remaining(s', id) == Remaining(s, id) - Chunk(b, id))
    && Line(s') == Keep(Line(s), Set(ended)) && s'.finished == s.finished + ended
    && (forall id | id in ended :: id in served)
    && (forall k :: 0 <= k < |served| && k < |choices| ==> (served[k] in ended <==> Ends(s', served, choices, k)))
  }

  lemma ServedAre(s: Sched, p: Pass) returns (served: seq<SeqId>)
    requires CalmPass(s, p) && PrefillAll(p.sched, p.batch.prefill, p.batch.chunkSizes).Returned?
    ensures var s1 := PrefillAll(p.sched, p.batch.prefill, p.batch.chunkSizes).sched;
      && served == Ready(s1, p.batch.decode, []) + Ready(s1, p.batch.prefill, p.batch.decode)
      && p.batch.decode <= served && NoDup(served)
      && (forall id :: id in served <==>
            id in p.batch.decode || (id in p.batch.prefill && Remaining(s, id) == Chunk(p.batch, id)))
  {
    hide PrefillAll, Shape, PassFits, Remaining, Kept;
    var b := p.batch;
    var s1 := PrefillAll(p.sched, b.prefill, b.chunkSizes).sched;
    forall id | id in b.decode ensures Remaining(s1, id) <= 0 {
      AfterPrefills(s, p, id);
    }
    AllReady(s1, b.decode);
    served := b.decode + Ready(s1, b.prefill, b.decode);
    forall id ensures id in served <==> id in b.decode || (id in b.prefill && Remaining(s, id) == Chunk(b, id)) {
      AfterPrefills(s, p, id);
      ReadyHas(s1, b.prefill, b.decode, id);
      FitsRemaining(s, p, id);
    }
    ReadyDistinct(s1, b.prefill, b.decode);
    forall id | id in b.decode ensures id !in Ready(s1, b.prefill, b.decode) {
      ReadyHas(s1, b.prefill, b.decode, id);
    }
    JoinDistinct(b.decode, Ready(s1, b.prefill, b.decode));
  }

  lemma FitsRemaining(s: Sched, p: Pass, id: SeqId)
    requires CalmPass(s, p)
    ensures id in p.batch.prefill ==> Chunk(p.batch, id) <= Remaining(s, id)
  {
    assert Kept(s, p, id);
  }

  lemma {:induction false} ReadyDistinct(s: Sched, ids: seq<SeqId>, except: seq<SeqId>)
    requires NoDup(ids)
    ensures NoDup(Ready(s, ids, except))
  {
    if ids != [] {
      ReadyDistinct(s, ids[1..], except);
      ReadyHas(s, ids[1..], except, ids[0]);
      assert ids[0] !in ids[1..];
    }
  }

  lemma CalmServes(s: Sched, p: Pass, choices: seq<Choice>) returns (served: seq<SeqId>, ended: seq<SeqId>)
    requires CalmPass(s, p)
    requires var r := PrefillAll(p.sched, p.batch.prefill, p.batch.chunkSizes);
      r.Returned? && ServeAll(r.sched, Ready(r.sched, p.batch.decode, [])
                                       + Ready(r.sched, p.batch.prefill, p.batch.decode), choices).Returned?
    ensures var s1 := PrefillAll(p.sched, p.batch.prefill, p.batch.chunkSizes).sched;
      StepServes(s, p.batch, choices, ServeAll(s1, served, choices).sched, served, ended)
    ensures var s1 := PrefillAll(p.sched, p.batch.prefill, p.batch.chunkSizes).sched;
      served == Ready(s1, p.batch.decode, []) + Ready(s1, p.batch.prefill, p.batch.decode)
  {
    hide PrefillAll, ServeAll, Shape, PassFits, Remaining, Kept, Keep, Ready;
    var s1 := PrefillAll(p.sched, p.batch.prefill, p.batch.chunkSizes).sched;
    served := ServedAre(s, p);
    PrefillAllQueues(p.sched, p.batch.prefill, p.batch.chunkSizes);
    ended := ServeAllEnds(s1, served, choices);
    var s' := ServeAll(s1, served, choices).sched;
    KeepJoins(p.sched.running, p.sched.waiting, Set(ended));
    KeepAll(p.sched.waiting, Set(ended));
    forall id
      ensures Whole(s', id) == Whole(s, id) + Tokens(served, choices, id)
      ensures Remaining(s', id) == Remaining(s, id) - Chunk(p.batch, id)
    {
      AfterPrefills(s, p, id);
      ServeAllGives(s1, served, choices, id);
      GrownWhole(s1, s', id, Tokens(served, choices, id));
    }
  }

  lemma GrownWhole(s: Sched, s': Sched, id: SeqId, toks: seq<Token>)
    requires Grown(Req(s, id), Req(s', id), toks)
    ensures Whole(s', id) == Whole(s, id) + toks && Remaining(s', id) == Remaining(s, id)
  {
  }

  lemma IsCalmPass(s: Sched)
    requires Sound(s) && Schedule(s).batch.preempted == []
    ensures CalmPass(s, Schedule(s)) && !Schedule(s).raised
  {
    var n, grants, ids, chunks := PassServes(s);
    PartsOfSound(s);
    var newly := ScheduleKeeps(s, false);
    hide Sound, Schedule, Serves, Conserved, Shape, Kept, PassFits;
    var p := Schedule(s);
    ScheduleFits(s);
    CalmIsDistinct(s);
    forall id ensures Kept(s, p, id) {
      StaysUntouched(s, p, n, grants, ids, chunks, id);
    }
    SameQueues(s, p, n, grants, ids, chunks);
    forall id | id in p.batch.decode ensures Remaining(s, id) <= 0 && id in s.running {
      DecodesAreReady(s, id);
    }
    PartsOfSound(p.sched);
    RunningDistinct(p.sched);
  }

  lemma StaysUntouched(s: Sched, p: Pass, n: nat, grants: seq<nat>, ids: seq<SeqId>, chunks: seq<nat>, id: SeqId)
    requires Shape(s.cache) && Serves(s, p, n, grants, ids, chunks) && id !in p.batch.preempted
    ensures Kept(s, p, id)
  {
    hide DecodesInOrder, Yields, PrefillsInOrder, Newcomers, Recorded, HadToWait, LastOut, Granted, Paid, Total, Shape;
  }

  lemma SameQueues(s: Sched, p: Pass, n: nat, grants: seq<nat>, ids: seq<SeqId>, chunks: seq<nat>)
    requires Shape(s.cache) && Serves(s, p, n, grants, ids, chunks)
    ensures Line(p.sched) == Line(s) && p.sched.finished == s.finished && p.sched.aborted == s.aborted
  {
    hide DecodesInOrder, Yields, PrefillsInOrder, Newcomers, Recorded, HadToWait, LastOut, Granted, Paid, Total, Shape;
    hide Remembered;
  }

  /** The engine step as a whole, when nobody gives way. Those served are the decodes and the requests whose
      prompt is done with this step's chunk, each once. Every request's tokens grow by the tokens chosen for it
      and its prompt is done further by its chunk; the line loses those told to stop or at their limit. */
  lemma CalmStepServes(s: Sched, choices: seq<Choice>) returns (served: seq<SeqId>, ended: seq<SeqId>)
    requires Sound(s) && Shape(s.cache) && Schedule(s).batch.preempted == [] && Step(s, choices).Returned?
    ensures StepServes(s, Schedule(s).batch, choices, Step(s, choices).sched, served, ended)
  {
    hide Sound, Schedule, CalmPass, StepServes, PrefillAll, ServeAll, Ready, Shape;
    IsCalmPass(s);
    served, ended := CalmServes(s, Schedule(s), choices);
  }

  /** Every step that returns, whoever gave way in it: the tokens of each request grow by those chosen for it,
      and by nothing else, and only requests of the batch are served. */
  lemma StepTokens(s: Sched, choices: seq<Choice>) returns (served: seq<SeqId>)
    requires Sound(s) && Shape(s.cache) && Step(s, choices).Returned?
    ensures var b, s' := Schedule(s).batch, Step(s, choices).sched;
      && (forall id :: Whole(s', id) == Whole(s, id) + Tokens(served, choices, id))
      && (forall id | id in served :: id in b.decode || id in b.prefill)
  {
    var n, grants, ids, chunks := PassServes(s);
    hide Sound, Schedule, Serves, Conserved, Shape, PrefillAll, ServeAll, Ready, Tokens, Whole, Remaining;
    var p := Schedule(s);
    var b := p.batch;
    var s1 := PrefillAll(p.sched, b.prefill, b.chunkSizes).sched;
    served := Ready(s1, b.decode, []) + Ready(s1, b.prefill, b.decode);
    PrefillAllQueues(p.sched, b.prefill, b.chunkSizes);
    forall id ensures Whole(Step(s, choices).sched, id) == Whole(s, id) + Tokens(served, choices, id) {
      SameTokens(s, p, n, grants, ids, chunks, id);
      ServeAllGives(s1, served, choices, id);
      GrownWhole(s1, ServeAll(s1, served, choices).sched, id, Tokens(served, choices, id));
    }
    forall id | id in served ensures id in b.decode || id in b.prefill {
      ReadyHas(s1, b.decode, [], id);
      ReadyHas(s1, b.prefill, b.decode, id);
    }
  }

  lemma SameTokens(s: Sched, p: Pass, n: nat, grants: seq<nat>, ids: seq<SeqId>, chunks: seq<nat>, id: SeqId)
    requires Shape(s.cache) && Serves(s, p, n, grants, ids, chunks)
    ensures Whole(p.sched, id) == Whole(s, id)
  {
    hide DecodesInOrder, Yields, PrefillsInOrder, Newcomers, Recorded, HadToWait, LastOut, Granted, Paid, Total, Shape;
  }

  // ----- the line over whole runs -----

  /** Whatever a step does, and even when it is cut short, the line only loses requests that finished. */
  lemma StepLine(s: Sched, choices: seq<Choice>) returns (ended: seq<SeqId>)
    requires Sound(s) && Shape(s.cache)
    ensures var s' := Step(s, choices).sched;
      && s'.finished == s.finished + ended && s'.aborted == s.aborted
      && Line(s') == Keep(Line(s), Set(ended)) && forall id | id in ended :: id in s'.reqs
  {
    var p := Schedule(s);
    PassLine(s);
    StepKeeps(s, choices, false);
    PartsOfSound(Step(s, choices).sched);
    hide Sound, Schedule, Conserved, Shape, PrefillAll, ServeAll, Ready, Keep;
    PrefillAllQueues(p.sched, p.batch.prefill, p.batch.chunkSizes);
    match PrefillAll(p.sched, p.batch.prefill, p.batch.chunkSizes)
    case Raised(s1) =>
      ended := [];
      KeepAll(Line(s), Set([]));
    case Returned(s1) =>
      var served := Ready(s1, p.batch.decode, []) + Ready(s1, p.batch.prefill, p.batch.decode);
      ended := ServeAllEnds(s1, served, choices);
      EndedOutOfLine(s1, ServeAll(s1, served, choices).sched, ended);
  }

  lemma PassLine(s: Sched)
    requires Sound(s) && Shape(s.cache)
    ensures var p := Schedule(s);
      && Line(p.sched) == Line(s) && p.sched.finished == s.finished && p.sched.aborted == s.aborted && !p.raised
      && NoDup(p.sched.running) && Shape(p.sched.cache)
  {
    var n, grants, ids, chunks := PassServes(s);
    var newly := ScheduleKeeps(s, false);
    var p := Schedule(s);
    PartsOfSound(p.sched);
    hide Sound, Schedule, Serves, Conserved, Shape;
    SameQueues(s, p, n, grants, ids, chunks);
    RunningDistinct(p.sched);
  }

  lemma EndedOutOfLine(s: Sched, s': Sched, ended: seq<SeqId>)
    requires Conserved(s') && s'.finished == s.finished + ended && s'.waiting == s.waiting
    requires s'.running == Keep(s.running, Set(ended))
    ensures Line(s') == Keep(Line(s), Set(ended)) && forall id | id in ended :: id in s'.reqs
  {
    forall id | id in ended ensures id !in s'.waiting && id in s'.reqs {
      assert id in s'.finished;
      assert Places(s', id) == if id in s'.reqs then 1 else 0;
    }
    KeepJoins(s.running, s.waiting, Set(ended));
    KeepAll(s.waiting, Set(ended));
  }

  /** Who joins the line by an event: a request within the context length, while the queue has room. */
  function Joined(s: Sched, e: Event): seq<SeqId> {
    if e.Submit? && |e.prompt| + e.maxTokens <= s.cfg.maxContext && |s.waiting| < s.cfg.maxWaiting then [e.id] else []
  }

  /** The ids that joined during a run, in order. */
  function Arrived(s: Sched, events: seq<Event>): seq<SeqId>
    requires Shape(s.cache)
    decreases |events|
  {
    if events == [] then []
    else Joined(s, events[0]) + Arrived(Exec(s, events[0]).sched, events[1..])
  }

  lemma AbortLine(s: Sched, id: SeqId)
    requires Sound(s) && Shape(s.cache)
    ensures var r := Abort(s, id);
      && (r.Some? <==> id in Line(s))
      && (r.Some? ==> Line(r.value) == Keep(Line(s), {id}) && id in s.reqs && id in r.value.aborted)
  {
    LineDistinct(s);
    PartsOfSound(s);
    RunningOnce(s, id);
    hide Sound, Conserved, Free, Shape;
    KeepJoins(s.running, s.waiting, {id});
    DistinctEnds(Line(s), 0, |s.running|);
    DistinctEnds(Line(s), |s.running|, |Line(s)|);
    assert Line(s)[..|s.running|] == s.running && Line(s)[|s.running|..] == s.waiting;
    if id in s.waiting {
      WithoutKeeps(s.waiting, id);
      KeepAll(s.running, {id});
    } else if id in s.running {
      WithoutKeeps(s.running, id);
      KeepAll(s.waiting, {id});
    }
  }

  lemma ExecLine(s: Sched, e: Event) returns (gone: set<SeqId>)
    requires Sound(s) && Shape(s.cache) && Legal(s, e)
    ensures var s' := Exec(s, e).sched;
      Line(s') == Keep(Line(s) + Joined(s, e), gone) && forall id | id in gone :: id in s'.reqs
    ensures forall id | id in Joined(s, e) :: id !in s.reqs
  {
    hide Sound, Shape, Step, Abort, Keep;
    gone := {};
    match e
    case Submit(id, _, _) =>
      KeepAll(Line(s) + Joined(s, e), {});
      assert Joined(s, e) == [id] ==> s.running + (s.waiting + [id]) == Line(s) + [id];
    case Cancel(id) =>
      AbortLine(s, id);
      if id in Line(s) {
        gone := {id};
        AbortReqs(s, id);
      }
      KeepAll(Line(s), {});
      assert Line(s) + Joined(s, e) == Line(s);
    case Tick(choices) =>
      var ended := StepLine(s, choices);
      gone := Set(ended);
      assert Line(s) + Joined(s, e) == Line(s);
  }

  lemma AbortReqs(s: Sched, id: SeqId)
    requires Shape(s.cache) && Abort(s, id).Some?
    ensures id in Abort(s, id).value.reqs
  {
    hide Free;
  }

  /** First come, first served: over any run the line is those who joined, in the order in which they joined,
      without those who have left. */
  lemma {:induction false} LineKeepsOrder(s: Sched, events: seq<Event>) returns (gone: set<SeqId>)
    requires Sound(s) && Shape(s.cache) && LegalRun(s, events)
    ensures Line(Play(s, events).sched) == Keep(Line(s) + Arrived(s, events), gone)
    ensures forall id | id in Arrived(s, events) :: id !in s.reqs
    decreases |events|
  {
    hide Sound, Shape, Exec, Keep, Joined;
    if events == [] {
      gone := {};
      KeepAll(Line(s), {});
      assert Line(s) + [] == Line(s);
    } else {
      var e, s1 := events[0], Exec(s, events[0]).sched;
      var first := ExecLine(s, e);
      ExecKeeps(s, e, false);
      ExecRemembers(s, e);
      var rest := LineKeepsOrder(s1, events[1..]);
      gone := first + rest;
      var later := Arrived(s1, events[1..]);
      KeepAll(later, first);
      KeepJoins(Line(s) + Joined(s, e), later, first);
      KeepTwice(Line(s) + Joined(s, e) + later, first, rest);
      assert Line(s) + (Joined(s, e) + later) == Line(s) + Joined(s, e) + later;
    }
  }
}
