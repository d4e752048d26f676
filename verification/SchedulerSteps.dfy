/** Queue operations: every one keeps the scheduler sound. */
module SchedulerSteps {
  import opened BlockPool
  import opened BlockPoolFork
  import opened BlockPoolInvariant
  import opened SchedulerModel
  import opened SchedulerInvariant

  // ----- queues -----

  lemma {:induction false} WithoutCounts(q: seq<SeqId>, id: SeqId)
    ensures multiset(Without(q, id)) == multiset(q) - multiset{id}
    ensures |Without(q, id)| == if id in q then |q| - 1 else |q|
  {
    if q != [] {
      assert q == [q[0]] + q[1..];
      if q[0] != id {
        WithoutCounts(q[1..], id);
        assert multiset([q[0]] + Without(q[1..], id)) == multiset{q[0]} + multiset(Without(q[1..], id));
      }
    }
  }

  lemma RunningOnce(s: Sched, id: SeqId)
    requires Conserved(s)
    ensures id in s.running ==> multiset(s.running)[id] == 1 && id !in s.waiting && id !in s.finished
                                && id !in s.aborted && id in s.reqs
    ensures id in s.waiting ==> multiset(s.waiting)[id] == 1 && id !in s.running && id !in s.finished
                                && id !in s.aborted && id in s.reqs
  {
    assert Places(s, id) == if id in s.reqs then 1 else 0;
    assert id in s.running <==> multiset(s.running)[id] > 0;
    assert id in s.waiting <==> multiset(s.waiting)[id] > 0;
    assert id in s.finished <==> multiset(s.finished)[id] > 0;
  }

  lemma WithoutMembers(q: seq<SeqId>, id: SeqId)
    requires multiset(q)[id] <= 1
    ensures forall x :: x in Without(q, id) <==> x in q && x != id
  {
    WithoutCounts(q, id);
    forall x ensures x in Without(q, id) <==> x in q && x != id {
      assert x in Without(q, id) <==> multiset(Without(q, id))[x] > 0;
      assert x in q <==> multiset(q)[x] > 0;
    }
  }

  // ----- preemption -----

  lemma LastMembers(q: seq<SeqId>)
    requires q != [] && multiset(q)[q[|q| - 1]] == 1
    ensures multiset(q) == multiset(q[..|q| - 1]) + multiset{q[|q| - 1]}
    ensures forall x :: x in q[..|q| - 1] <==> x in q && x != q[|q| - 1]
  {
    var n := |q| - 1;
    assert q == q[..n] + [q[n]];
    forall x ensures x in q[..n] <==> x in q && x != q[n] {
      assert x in q[..n] <==> multiset(q[..n])[x] > 0;
      assert x in q <==> multiset(q)[x] > 0;
    }
  }

  lemma PreemptConserves(s: Sched)
    requires Conserved(s) && Shape(s.cache) && s.running != []
    ensures Conserved(Preempt(s))
  {
    var s' := Preempt(s);
    var v := s.running[|s.running| - 1];
    RunningOnce(s, v);
    LastMembers(s.running);
    forall id ensures Places(s', id) == if id in s'.reqs then 1 else 0 {
      assert Places(s, id) == if id in s.reqs then 1 else 0;
      assert multiset(s'.waiting) == multiset{v} + multiset(s.waiting);
    }
  }

  /** Preemption keeps the scheduler sound: the victim's table is freed, its request
      starts over at the head of the queue, and no token of its history is lost. */
  lemma PreemptKeeps(s: Sched)
    requires Sound(s) && s.running != []
    ensures var v := s.running[|s.running| - 1];
      Sound(Preempt(s)) && View(Preempt(s).cache) == View(s.cache) - {v}
  {
    hide FreeOk, RefOk, IndexOk, HashOk, TablesOk, Free;
    var s' := Preempt(s);
    var v := s.running[|s.running| - 1];
    PreemptConserves(s);
    FreeKeeps(s.cache, v);
    RunningOnce(s, v);
    LastMembers(s.running);
    assert Req(s, v).prompt + Req(s, v).output == Folded(Req(s, v)).prompt + [];
  }

  /** s' is s with v evicted and nothing else about the others changed. */
  ghost predicate Evicts(s: Sched, s': Sched, v: SeqId) {
    && (forall x :: x in s'.running <==> x in s.running && x != v)
    && (forall x | x != v :: Req(s', x) == Req(s, x))
    && Req(s', v) == Folded(Req(s, v))
    && s'.reqs.Keys == s.reqs.Keys
    && View(s'.cache) == View(s.cache) - {v}
  }

  lemma PreemptEvicts(s: Sched)
    requires Sound(s) && s.running != []
    ensures Evicts(s, Preempt(s), s.running[|s.running| - 1])
  {
    hide FreeOk, RefOk, IndexOk, HashOk, TablesOk, HistoriesOk, QueueLimits, WaitingReset, TablesAreRunning, Free;
    var v := s.running[|s.running| - 1];
    RunningOnce(s, v);
    LastMembers(s.running);
    FreeKeeps(s.cache, v);
  }

  lemma EvictLoaded(s: Sched, s': Sched, v: SeqId, newly: map<SeqId, nat>)
    requires Evicts(s, s', v) && Loaded(s, newly)
    ensures Loaded(s', newly - {v})
  {
    forall id | id in s'.running
      ensures if id in newly - {v} then JustAdmitted(s', id, (newly - {v})[id]) else InStep(s', id)
    {
      assert id in s.running && id != v;
      assert Req(s', id) == Req(s, id) && View(s'.cache)[id] == View(s.cache)[id];
    }
  }

  lemma EvictLengths(s: Sched, s': Sched, v: SeqId)
    requires Evicts(s, s', v) && LengthsOk(s) && v in s.running && v in s.reqs && s.reqs[v].maxTokens >= 1
    ensures LengthsOk(s')
  {
    var r := s.reqs[v];
    assert (r.preemptions + 1) * r.maxTokens == r.preemptions * r.maxTokens + r.maxTokens;
    forall id | id in s'.reqs ensures Bounded(s'.reqs[id]) {
      assert Req(s', id) == s'.reqs[id] && Bounded(s.reqs[id]);
    }
  }
}
