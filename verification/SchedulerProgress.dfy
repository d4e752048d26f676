/** What a scheduling pass serves: who decodes, which prefills go on and by how much, who is admitted and
    who gives way, told by the queues before and after it and not by its three phases. */
module SchedulerProgress {
  import opened Prelude
  import opened BlockPool
  import opened SchedulerModel
  import opened SchedulerInvariant
  import opened SchedulerPass
  import SchedulerRepeats

  /** Everybody in line: those running, in order of admission, then those waiting. */
  function Line(s: Sched): seq<SeqId> {
    s.running + s.waiting
  }

  /** All the tokens of a request: its prompt and what it has generated since. */
  function Whole(s: Sched, id: SeqId): seq<Token> {
    Req(s, id).prompt + Req(s, id).output
  }

  /** How much of its prompt a request has left to prefill. */
  function Remaining(s: Sched, id: SeqId): int {
    |Req(s, id).prompt| - Req(s, id).prefillOffset
  }

  /** The requests whose prefill is done, in order. */
  function Done(s: Sched, ids: seq<SeqId>): seq<SeqId> {
    if ids == [] then []
    else
      var last := ids[|ids| - 1];
      Done(s, ids[..|ids| - 1]) + if Remaining(s, last) <= 0 then [last] else []
  }

  /** g is what a request with `remaining` prompt tokens gets out of `left`; 0 when it gets no turn. */
  predicate IsGrant(cfg: Config, remaining: int, left: int, g: nat) {
    if remaining <= 0 || left <= 0 then g == 0
    else if !cfg.chunkedPrefill then g == if remaining <= left then remaining else 0
    else
      var most := if cfg.chunkSize >= 0 then cfg.chunkSize else 0;
      g <= remaining && g <= left && g <= most && (g == remaining || g == left || g == most)
  }

  function Total(grants: seq<nat>): nat {
    if grants == [] then 0 else Total(grants[..|grants| - 1]) + grants[|grants| - 1]
  }

  lemma TotalNext(grants: seq<nat>, g: nat)
    ensures Total(grants + [g]) == Total(grants) + g
  {
    assert (grants + [g])[..|grants|] == grants;
  }

  /** Those who get something, and what they get. */
  function Granted(ids: seq<SeqId>, grants: seq<nat>): seq<SeqId>
    requires |ids| == |grants|
  {
    if ids == [] then []
    else
      var n := |ids| - 1;
      Granted(ids[..n], grants[..n]) + if grants[n] > 0 then [ids[n]] else []
  }

  function Paid(grants: seq<nat>): seq<nat> {
    if grants == [] then []
    else
      var n := |grants| - 1;
      Paid(grants[..n]) + if grants[n] > 0 then [grants[n]] else []
  }

  /** The batch records for each request the last chunk it was given. */
  ghost predicate Recorded(sizes: map<SeqId, nat>, ids: seq<SeqId>, chunks: seq<nat>) {
    && |ids| == |chunks|
    && (forall id :: id in sizes <==> id in ids)
    && forall k :: 0 <= k < |ids| && ids[k] !in ids[k + 1..] ==> ids[k] in sizes && sizes[ids[k]] == chunks[k]
  }

  lemma RecordedNext(sizes: map<SeqId, nat>, ids: seq<SeqId>, chunks: seq<nat>, id: SeqId, chunk: nat)
    requires Recorded(sizes, ids, chunks)
    ensures Recorded(sizes[id := chunk], ids + [id], chunks + [chunk])
  {
    var ids' := ids + [id];
    forall k | 0 <= k < |ids'| && ids'[k] !in ids'[k + 1..]
      ensures ids'[k] in sizes[id := chunk] && sizes[id := chunk][ids'[k]] == (chunks + [chunk])[k]
    {
      if k < |ids| {
        assert ids'[k + 1..] == ids[k + 1..] + [id];
      }
    }
  }

  // ----- decodes -----

  /** The pass p has come to position i of the requests that were running in s. */
  ghost predicate Decoded(s: Sched, p: Pass, i: nat)
    requires Shape(s.cache)
  {
    var R, n := s.running, |p.sched.running|;
    && n <= |R| && i <= |R| && p.sched.running == R[..n] && p.sched.waiting == R[n..] + s.waiting
    && p.batch.prefill == [] && p.batch.chunkSizes == map[] && p.sched.cfg == s.cfg && !p.raised
    && p.sched.finished == s.finished && p.sched.aborted == s.aborted
    && p.batch.decode == Done(s, R[..Min(i, n)])
    && p.budget == s.cfg.maxBatchedTokens - |p.batch.decode| && p.budget >= 0
    && (n < |R| ==> !CanAllocate(s.cache, 1, s.cfg.watermark))
    && (n == |R| ==> p.sched.cache == s.cache)
    && |R| - n <= |p.batch.decode| + if n <= i then 1 else 0
  }

  /** The last ones running have given way, latest first, and start over with all their tokens. */
  ghost predicate GaveWay(s: Sched, p: Pass) {
    var R, n := s.running, |p.sched.running|;
    && n <= |R| && |p.batch.preempted| == |R| - n
    && (forall j :: 0 <= j < |R| - n ==> p.batch.preempted[j] == R[|R| - 1 - j])
    && (forall id | id !in R[n..] :: Req(p.sched, id) == Req(s, id))
    && (forall id | id in R[n..] :: Remaining(p.sched, id) == |Whole(s, id)|)
  }

  /** Up to its bookkeeping, the request is as it was. */
  ghost predicate Untouched(r: Request, r': Request) {
    r'.(cachedTokens := 0, state := Waiting) == r.(cachedTokens := 0, state := Waiting)
  }

  /** No request loses a token, each counts its own preemptions, and without any it stays as it is. */
  ghost predicate Remembered(s: Sched, p: Pass) {
    forall id :: Whole(p.sched, id) == Whole(s, id)
                 && Req(p.sched, id).preemptions == Req(s, id).preemptions + multiset(p.batch.preempted)[id]
                 && (id !in p.batch.preempted ==> Untouched(Req(s, id), Req(p.sched, id)))
  }

  lemma DoneNext(s: Sched, ids: seq<SeqId>, i: nat)
    requires i < |ids|
    ensures Done(s, ids[..i + 1]) == Done(s, ids[..i]) + if Remaining(s, ids[i]) <= 0 then [ids[i]] else []
  {
    assert ids[..i + 1][..i] == ids[..i];
  }

  lemma PreemptFolds(p: Pass, id: SeqId)
    requires Shape(p.sched.cache) && p.sched.running != []
    ensures Req(PreemptIn(p).sched, id)
         == if id == p.sched.running[|p.sched.running| - 1] then Folded(Req(p.sched, id)) else Req(p.sched, id)
  {
    hide Free;
  }

  lemma PreemptRemembers(s: Sched, p: Pass)
    requires Shape(p.sched.cache) && p.sched.running != [] && Remembered(s, p)
    ensures Remembered(s, PreemptIn(p))
  {
    hide Preempt, Shape;
    var v := p.sched.running[|p.sched.running| - 1];
    forall id
      ensures Whole(PreemptIn(p).sched, id) == Whole(s, id)
      ensures Req(PreemptIn(p).sched, id).preemptions
              == Req(s, id).preemptions + multiset(PreemptIn(p).batch.preempted)[id]
      ensures id !in PreemptIn(p).batch.preempted ==> Untouched(Req(s, id), Req(PreemptIn(p).sched, id))
    {
      PreemptFolds(p, id);
      assert Whole(p.sched, id) == Whole(s, id);
    }
  }

  lemma PreemptRestarts(s: Sched, p: Pass, n: nat, id: SeqId)
    requires Shape(p.sched.cache) && 0 < n <= |s.running| && NoDup(s.running) && p.sched.running == s.running[..n]
    requires Whole(p.sched, id) == Whole(s, id)
    requires if id in s.running[n..] then Remaining(p.sched, id) == |Whole(s, id)| else Req(p.sched, id) == Req(s, id)
    ensures id in s.running[n - 1..] <==> id in s.running[n..] || id == s.running[n - 1]
    ensures var s' := PreemptIn(p).sched;
      if id in s.running[n - 1..] then Remaining(s', id) == |Whole(s, id)| else Req(s', id) == Req(s, id)
  {
    hide Preempt, Shape;
    PreemptFolds(p, id);
    assert s.running[n - 1..] == [s.running[n - 1]] + s.running[n..];
  }

  lemma PreemptGives(s: Sched, p: Pass)
    requires Shape(p.sched.cache) && p.sched.running != [] && Remembered(s, p) && GaveWay(s, p)
    requires p.sched.running == s.running[..|p.sched.running|] && NoDup(s.running)
    ensures GaveWay(s, PreemptIn(p))
  {
    hide Preempt, Shape, Remaining, NoDup, Untouched;
    var n := |p.sched.running|;
    PreemptShortens(p);
    forall id ensures var s' := PreemptIn(p).sched;
      if id in s.running[n - 1..] then Remaining(s', id) == |Whole(s, id)| else Req(s', id) == Req(s, id)
    {
      assert Whole(p.sched, id) == Whole(s, id);
      PreemptRestarts(s, p, n, id);
    }
  }

  lemma PreemptShortens(p: Pass)
    requires Shape(p.sched.cache) && p.sched.running != []
    ensures PreemptIn(p).sched.running == p.sched.running[..|p.sched.running| - 1]
    ensures PreemptIn(p).batch.preempted == p.batch.preempted + [p.sched.running[|p.sched.running| - 1]]
  {
    hide Free;
  }

  /** One turn that needs a block the watermark refuses: the last one running gives way. */
  lemma DecodeTurn(s: Sched, p: Pass, i: nat)
    requires Shape(s.cache) && Shape(p.sched.cache) && NoDup(s.running) && Decoded(s, p, i) && GaveWay(s, p)
    requires i < |p.sched.running| && p.budget >= 1 && Remaining(s, s.running[i]) <= 0
    requires !CanAllocate(p.sched.cache, 1, p.sched.cfg.watermark)
    ensures var id := s.running[i];
      var self := p.sched.running[|p.sched.running| - 1] == id;
      Decoded(s, if self then PreemptIn(p) else Decoding(PreemptIn(p), id), i + 1)
  {
    hide Free, CanAllocate, Remaining;
    var R, n := s.running, |p.sched.running|;
    assert R[n - 1..] == [R[n - 1]] + R[n..];
    assert R[..n][..n - 1] == R[..n - 1];
    DoneNext(s, R, i);
    if n - 1 != i {
      assert R[n - 1] != R[i];
    }
  }

  ghost predicate Turned(s: Sched, p: Pass, i: nat) {
    Shape(s.cache) && Shape(p.sched.cache) && Decoded(s, p, i) && GaveWay(s, p) && Remembered(s, p)
  }

  /** A request that comes to its turn with its prefill done has not given way. */
  lemma HasNotGivenWay(s: Sched, p: Pass, i: nat)
    requires Turned(s, p, i) && NoDup(s.running) && HistoriesOk(s) && i < |s.running|
    requires s.running[i] in s.reqs
    ensures Remaining(p.sched, s.running[i]) <= 0 ==> i < |p.sched.running|
    ensures i < |p.sched.running| ==> Req(p.sched, s.running[i]) == Req(s, s.running[i])
  {
    hide CanAllocate, Remembered, Shape, Done;
    var R, n := s.running, |p.sched.running|;
    var id := R[i];
    if i >= n {
      assert id == R[n..][i - n];
      assert HistoryOk(s.reqs[id]);
    } else {
      assert id !in R[n..];
    }
  }

  lemma SkippedTurn(s: Sched, p: Pass, i: nat)
    requires Turned(s, p, i) && i < |s.running|
    requires i < |p.sched.running| ==> Remaining(s, s.running[i]) > 0
    ensures Turned(s, p, i + 1)
  {
    hide CanAllocate, Shape, GaveWay, Remembered, Remaining;
    if i < |p.sched.running| {
      DoneNext(s, s.running, i);
    }
  }

  lemma PlainTurn(s: Sched, p: Pass, i: nat)
    requires Turned(s, p, i) && i < |p.sched.running| && p.budget >= 1 && Remaining(s, s.running[i]) <= 0
    ensures Turned(s, Decoding(p, s.running[i]), i + 1)
  {
    hide CanAllocate, Shape, GaveWay, Remaining;
    DoneNext(s, s.running, i);
    assert GaveWay(s, Decoding(p, s.running[i])) by {
      HoldsAlike(s, p, Decoding(p, s.running[i]));
    }
  }

  lemma HoldsAlike(s: Sched, p: Pass, p': Pass)
    requires p'.sched == p.sched && p'.batch.preempted == p.batch.preempted
    ensures GaveWay(s, p) ==> GaveWay(s, p')
    ensures Remembered(s, p) ==> Remembered(s, p')
  {
  }

  lemma ShortTurn(s: Sched, p: Pass, i: nat)
    requires Turned(s, p, i) && NoDup(s.running) && p.budget >= 1
    requires i < |p.sched.running| && Remaining(s, s.running[i]) <= 0
    requires !CanAllocate(p.sched.cache, 1, p.sched.cfg.watermark)
    ensures var id := s.running[i];
      var self := p.sched.running[|p.sched.running| - 1] == id;
      Turned(s, if self then PreemptIn(p) else Decoding(PreemptIn(p), id), i + 1)
  {
    DecodeTurn(s, p, i);
    hide CanAllocate, GaveWay, Remembered, Remaining, Decoded;
    PreemptGives(s, p);
    PreemptRemembers(s, p);
    HoldsAlike(s, PreemptIn(p), Decoding(PreemptIn(p), s.running[i]));
  }

  /** The decode phase serves those running in order until the budget is spent or all have had their turn. */
  lemma {:induction false} DecodesServed(s: Sched, p: Pass, i: nat) returns (k: nat)
    requires Shape(p.sched.cache) && Turned(s, p, i) && i <= |s.running|
    requires NoDup(s.running) && HistoriesOk(s) && forall id | id in s.running :: id in s.reqs
    ensures k <= |s.running| && Turned(s, DecodePhase(p, s.running[i..]), k)
    ensures k == |s.running| || DecodePhase(p, s.running[i..]).budget == 0
    decreases |s.running| - i
  {
    hide CanAllocate, Preempt, Done, Turned, HistoriesOk, Shape;
    var R := s.running;
    k := i;
    if i < |R| {
      var id := R[i];
      assert R[i..][0] == id && R[i..][1..] == R[i + 1..];
      HasNotGivenWay(s, p, i);
      TurnedBudget(s, p, i);
      if Remaining(p.sched, id) > 0 {
        SkippedTurn(s, p, i);
        k := DecodesServed(s, p, i + 1);
      } else if p.budget >= 1 {
        if CanAllocate(p.sched.cache, 1, p.sched.cfg.watermark) {
          PlainTurn(s, p, i);
          k := DecodesServed(s, Decoding(p, id), i + 1);
        } else {
          ShortTurn(s, p, i);
          var self := p.sched.running[|p.sched.running| - 1] == id;
          k := DecodesServed(s, if self then PreemptIn(p) else Decoding(PreemptIn(p), id), i + 1);
        }
      }
    }
  }

  lemma TurnedBudget(s: Sched, p: Pass, i: nat)
    requires Turned(s, p, i)
    ensures p.budget >= 0 && p.sched.cache.blockSize > 0
  {
  }

  // ----- prefills in flight -----

  lemma PlanIsGrant(cfg: Config, r: Request, budget: int)
    ensures var chunk := PlanChunk(cfg, r, budget);
      IsGrant(cfg, |r.prompt| - r.prefillOffset, budget, if budget <= 0 || chunk <= 0 then 0 else chunk)
  {
  }

  /** Out of what the decodes left, the requests `ids` have been given `grants`, each in its turn. */
  ghost predicate GoneOn(p: Pass, q: Pass, ids: seq<SeqId>, grants: seq<nat>) {
    && |ids| == |grants| && q.sched == p.sched && q.raised == p.raised
    && q.batch.decode == p.batch.decode && q.batch.preempted == p.batch.preempted
    && q.batch.prefill == Granted(ids, grants) && q.budget == p.budget - Total(grants)
    && Recorded(q.batch.chunkSizes, q.batch.prefill, Paid(grants))
    && forall j :: 0 <= j < |ids| ==> InTurn(p, ids, grants, j)
  }

  ghost predicate InTurn(p: Pass, ids: seq<SeqId>, grants: seq<nat>, j: nat)
    requires |ids| == |grants|
  {
    j < |ids| && IsGrant(p.sched.cfg, Remaining(p.sched, ids[j]), p.budget - Total(grants[..j]), grants[j])
  }

  lemma GrantedNext(ids: seq<SeqId>, grants: seq<nat>, id: SeqId, g: nat)
    requires |ids| == |grants|
    ensures Granted(ids + [id], grants + [g]) == if g > 0 then Granted(ids, grants) + [id] else Granted(ids, grants)
    ensures Paid(grants + [g]) == if g > 0 then Paid(grants) + [g] else Paid(grants)
  {
    assert (ids + [id])[..|ids|] == ids && (grants + [g])[..|ids|] == grants;
  }

  lemma GrantNext(p: Pass, q: Pass, ids: seq<SeqId>, grants: seq<nat>, id: SeqId, g: nat)
    requires GoneOn(p, q, ids, grants) && IsGrant(p.sched.cfg, Remaining(p.sched, id), q.budget, g)
    ensures GoneOn(p, if g > 0 then Filling(q, id, g) else q, ids + [id], grants + [g])
  {
    hide IsGrant, Recorded, Remaining, Granted, Paid, Total;
    var ids', grants' := ids + [id], grants + [g];
    TotalNext(grants, g);
    GrantedNext(ids, grants, id, g);
    assert ids'[..|ids|] == ids && grants'[..|ids|] == grants;
    if g > 0 {
      RecordedNext(q.batch.chunkSizes, q.batch.prefill, Paid(grants), id, g);
    }
    forall j: nat | j < |ids'| ensures InTurn(p, ids', grants', j) {
      if j < |ids| {
        assert InTurn(p, ids, grants, j) && grants'[..j] == grants[..j];
      }
    }
  }

  /** The prefill phase gives every unfinished request its chunk, in order, while the budget lasts. */
  lemma {:induction false} PrefillsGoOn(p: Pass, q: Pass, ids: seq<SeqId>, i: nat, grants: seq<nat>)
    returns (all: seq<nat>)
    requires i <= |ids| && GoneOn(p, q, ids[..i], grants)
    ensures GoneOn(p, PrefillPhase(q, ids[i..]), ids, all)
    decreases |ids| - i
  {
    hide GoneOn, PlanChunk, IsGrant;
    all := grants;
    if i < |ids| {
      var id := ids[i];
      assert ids[i..][0] == id && ids[i..][1..] == ids[i + 1..] && ids[..i] + [id] == ids[..i + 1];
      GoneOnSched(p, q, ids[..i], grants);
      var chunk := PlanChunk(q.sched.cfg, Req(q.sched, id), q.budget);
      PlanIsGrant(q.sched.cfg, Req(q.sched, id), q.budget);
      NoneWhenDone(q.sched, id, q.budget);
      var g: nat := if q.budget <= 0 || chunk <= 0 then 0 else chunk;
      GrantNext(p, q, ids[..i], grants, id, g);
      all := PrefillsGoOn(p, if g > 0 then Filling(q, id, g) else q, ids, i + 1, grants + [g]);
    } else {
      assert ids[..i] == ids && ids[i..] == [];
    }
  }

  lemma NoneWhenDone(s: Sched, id: SeqId, budget: int)
    ensures Req(s, id).PrefillDone() ==> PlanChunk(s.cfg, Req(s, id), budget) <= 0
  {
  }

  lemma GoneOnSched(p: Pass, q: Pass, ids: seq<SeqId>, grants: seq<nat>)
    requires GoneOn(p, q, ids, grants)
    ensures q.sched == p.sched
  {
  }

  // ----- admissions -----

  /** Out of `budget`, the newcomers `ids` have been given `chunks`, each in its turn. */
  ghost predicate Newcomers(s: Sched, budget: int, ids: seq<SeqId>, chunks: seq<nat>) {
    && |ids| == |chunks|
    && forall k :: 0 <= k < |ids| ==> NewInTurn(s, budget, ids, chunks, k)
  }

  ghost predicate NewInTurn(s: Sched, budget: int, ids: seq<SeqId>, chunks: seq<nat>, k: nat)
    requires |ids| == |chunks|
  {
    k < |ids| && chunks[k] > 0 && IsGrant(s.cfg, |Whole(s, ids[k])|, budget - Total(chunks[..k]), chunks[k])
  }

  /** From p to q, only the boundary between those running and those waiting has moved. */
  ghost predicate Moved(p: Pass, q: Pass, ids: seq<SeqId>) {
    var n, n' := |p.sched.running|, |q.sched.running|;
    && Line(q.sched) == Line(p.sched) && q.sched.cfg == p.sched.cfg
    && q.sched.finished == p.sched.finished && q.sched.aborted == p.sched.aborted
    && p.batch.preempted <= q.batch.preempted
    && n + |ids| == n' + |q.batch.preempted| - |p.batch.preempted|
    && (q.batch.preempted == p.batch.preempted ==> n <= n' && ids == Line(p.sched)[n..n'])
  }

  /** Whoever is admitted was waiting before the pass, or gave way in it. */
  ghost predicate HadToWait(s: Sched, q: Pass, ids: seq<SeqId>) {
    && Line(q.sched) == Line(s)
    && forall id | id in ids || id in q.sched.waiting :: id in Line(s) && (id in s.waiting || id in q.batch.preempted)
  }

  lemma PreemptWaits(s: Sched, q: Pass, ids: seq<SeqId>)
    requires Shape(q.sched.cache) && q.sched.running != [] && HadToWait(s, q, ids)
    ensures HadToWait(s, PreemptIn(q), ids)
  {
    hide Free;
    var n := |q.sched.running| - 1;
    assert q.sched.running == q.sched.running[..n] + [q.sched.running[n]];
    assert Line(q.sched)[n] == q.sched.running[n];
  }

  lemma AdmitWaits(s: Sched, q: Pass, ids: seq<SeqId>, cache: Cache, chunk: nat)
    requires q.sched.waiting != [] && HadToWait(s, q, ids)
    ensures var id := q.sched.waiting[0];
      HadToWait(s, Filling(q.(sched := Admitted(q.sched, cache)), id, chunk), ids + [id])
  {
    assert q.sched.waiting == [q.sched.waiting[0]] + q.sched.waiting[1..];
    assert q.sched.running + q.sched.waiting
        == q.sched.running + [q.sched.waiting[0]] + q.sched.waiting[1..];
  }

  /** Of those running before the pass, the most recently admitted ones gave way: all from place `low` on. */
  ghost predicate Youngest(s: Sched, q: Pass, low: nat) {
    && low <= |s.running| && low <= |q.sched.running| && Line(q.sched) == Line(s)
    && forall i: nat | i < |s.running| :: s.running[i] in q.batch.preempted <==> i >= low
  }

  ghost predicate LastOut(s: Sched, q: Pass) {
    exists low: nat :: Youngest(s, q, low)
  }

  lemma PreemptLastOut(s: Sched, q: Pass)
    requires Shape(q.sched.cache) && q.sched.running != [] && LastOut(s, q) && NoDup(Line(s))
    ensures LastOut(s, PreemptIn(q))
  {
    hide Free;
    var low: nat :| Youngest(s, q, low);
    var m := |q.sched.running| - 1;
    var low' := Min(low, m);
    assert q.sched.running == q.sched.running[..m] + [q.sched.running[m]];
    assert Line(s)[m] == q.sched.running[m];
    assert Line(PreemptIn(q).sched) == Line(s);
    forall i: nat | i < |s.running| ensures s.running[i] in PreemptIn(q).batch.preempted <==> i >= low' {
      assert Line(s)[i] == s.running[i];
    }
    assert Youngest(s, PreemptIn(q), low');
  }

  lemma AdmitLastOut(s: Sched, q: Pass, cache: Cache, chunk: nat)
    requires LastOut(s, q) && q.sched.waiting != []
    ensures LastOut(s, Filling(q.(sched := Admitted(q.sched, cache)), q.sched.waiting[0], chunk))
  {
    var low: nat :| Youngest(s, q, low);
    assert Youngest(s, Filling(q.(sched := Admitted(q.sched, cache)), q.sched.waiting[0], chunk), low);
  }

  ghost predicate Taking(s: Sched, p: Pass, q: Pass, ids: seq<SeqId>, chunks: seq<nat>, paid: seq<nat>) {
    && s.cfg == q.sched.cfg && Moved(p, q, ids) && Newcomers(s, p.budget, ids, chunks)
    && Remembered(s, q) && HadToWait(s, q, ids) && LastOut(s, q)
    && q.batch.decode == p.batch.decode && q.batch.prefill == p.batch.prefill + ids
    && q.budget == p.budget - Total(chunks)
    && Recorded(q.batch.chunkSizes, q.batch.prefill, paid + chunks)
  }

  /** Nobody else can be admitted: nobody waits, the budget or the slots are used up, or the first one
      waiting can be given no chunk, or is refused its blocks with nobody left to give way. */
  ghost predicate AdmissionOver(s: Sched, q: Pass) {
    || q.sched.waiting == [] || q.budget <= 0 || |q.sched.running| >= q.sched.cfg.maxRunning
    || IsGrant(s.cfg, |Whole(s, q.sched.waiting[0])|, q.budget, 0)
    || (q.sched.running == [] && q.sched.cache.blockSize > 0 && exists g: nat ::
          IsGrant(s.cfg, |Whole(s, q.sched.waiting[0])|, q.budget, g) && Refused(s, q, g))
  }

  /** The watermark refuses the first one waiting: its chunk, or without chunking its whole prompt. */
  ghost predicate Refused(s: Sched, q: Pass, g: nat)
    requires q.sched.waiting != [] && q.sched.cache.blockSize > 0
  {
    !CanAllocate(q.sched.cache, if s.cfg.chunkedPrefill then g else |Whole(s, q.sched.waiting[0])|, s.cfg.watermark)
  }

  lemma WaitingRemaining(s: Sched, q: Pass)
    requires WaitingReset(q.sched) && Remembered(s, q) && q.sched.waiting != []
    ensures var id := q.sched.waiting[0];
      Req(q.sched, id).prompt == Whole(s, id) && Req(q.sched, id).prefillOffset == 0
  {
    var id := q.sched.waiting[0];
    assert Whole(q.sched, id) == Whole(s, id);
  }

  lemma AdmitMoves(p: Pass, q: Pass, ids: seq<SeqId>, cache: Cache, chunk: nat)
    requires Moved(p, q, ids) && q.sched.waiting != []
    ensures var id := q.sched.waiting[0];
      Moved(p, Filling(q.(sched := Admitted(q.sched, cache)), id, chunk), ids + [id])
  {
  }

  lemma PreemptMoves(p: Pass, q: Pass, ids: seq<SeqId>)
    requires Shape(q.sched.cache) && Moved(p, q, ids) && q.sched.running != []
    ensures Moved(p, PreemptIn(q), ids)
  {
    hide Free;
    var n := |q.sched.running| - 1;
    assert q.sched.running == q.sched.running[..n] + [q.sched.running[n]];
  }

  lemma AdmitRemembers(s: Sched, q: Pass, cache: Cache, chunk: nat)
    requires Remembered(s, q) && q.sched.waiting != []
    ensures Remembered(s, Filling(q.(sched := Admitted(q.sched, cache)), q.sched.waiting[0], chunk))
  {
    var q' := Filling(q.(sched := Admitted(q.sched, cache)), q.sched.waiting[0], chunk);
    forall id
      ensures Whole(q'.sched, id) == Whole(s, id)
      ensures Req(q'.sched, id).preemptions == Req(s, id).preemptions + multiset(q'.batch.preempted)[id]
      ensures id !in q'.batch.preempted ==> Untouched(Req(s, id), Req(q'.sched, id))
    {
      assert Whole(q.sched, id) == Whole(s, id);
    }
  }

  lemma NewcomersNext(s: Sched, budget: int, ids: seq<SeqId>, chunks: seq<nat>, id: SeqId, chunk: nat)
    requires Newcomers(s, budget, ids, chunks) && chunk > 0
    requires IsGrant(s.cfg, |Whole(s, id)|, budget - Total(chunks), chunk)
    ensures Newcomers(s, budget, ids + [id], chunks + [chunk])
  {
    hide IsGrant;
    var ids', chunks' := ids + [id], chunks + [chunk];
    assert chunks'[..|ids|] == chunks;
    forall k: nat | k < |ids'| ensures NewInTurn(s, budget, ids', chunks', k) {
      if k < |ids| {
        assert NewInTurn(s, budget, ids, chunks, k) && chunks'[..k] == chunks[..k];
      }
    }
  }

  lemma TakingNext(s: Sched, p: Pass, q: Pass, ids: seq<SeqId>, chunks: seq<nat>, paid: seq<nat>, cache: Cache,
      chunk: nat)
    requires Taking(s, p, q, ids, chunks, paid) && q.sched.waiting != [] && chunk > 0
    requires IsGrant(s.cfg, |Whole(s, q.sched.waiting[0])|, q.budget, chunk)
    ensures var id := q.sched.waiting[0];
      Taking(s, p, Filling(q.(sched := Admitted(q.sched, cache)), id, chunk), ids + [id], chunks + [chunk], paid)
  {
    hide IsGrant, Recorded, Remembered, Newcomers, Moved, LastOut, HadToWait;
    var id := q.sched.waiting[0];
    AdmitLastOut(s, q, cache, chunk);
    AdmitWaits(s, q, ids, cache, chunk);
    AdmitMoves(p, q, ids, cache, chunk);
    AdmitRemembers(s, q, cache, chunk);
    NewcomersNext(s, p.budget, ids, chunks, id, chunk);
    TotalNext(chunks, chunk);
    RecordedNext(q.batch.chunkSizes, q.batch.prefill, paid + chunks, id, chunk);
    assert paid + chunks + [chunk] == paid + (chunks + [chunk]);
    assert p.batch.prefill + ids + [id] == p.batch.prefill + (ids + [id]);
  }

  lemma TakingGivesWay(s: Sched, p: Pass, q: Pass, ids: seq<SeqId>, chunks: seq<nat>, paid: seq<nat>)
    requires Shape(q.sched.cache) && Taking(s, p, q, ids, chunks, paid) && q.sched.running != [] && NoDup(Line(s))
    ensures Taking(s, p, PreemptIn(q), ids, chunks, paid)
  {
    hide Remembered, Newcomers, Moved, Recorded, Free, LastOut, HadToWait;
    PreemptLastOut(s, q);
    PreemptWaits(s, q, ids);
    PreemptMoves(p, q, ids);
    PreemptRemembers(s, q);
  }

  /** The admission phase takes from the head of the line until it can take no more. */
  lemma {:induction false} AdmissionsTaken(s: Sched, p: Pass, q: Pass, ids: seq<SeqId>, chunks: seq<nat>,
      paid: seq<nat>, limit: nat, newly: map<SeqId, nat>)
    returns (ids': seq<SeqId>, chunks': seq<nat>)
    requires PassOk(q, limit, newly, false) && Taking(s, p, q, ids, chunks, paid) && NoDup(Line(s))
    ensures Taking(s, p, AdmitPhase(q), ids', chunks', paid) && AdmissionOver(s, AdmitPhase(q))
    decreases q.budget, |q.sched.running|
  {
    hide Sound, WithinBudget, BatchOk, NewlyInBatch, CanAllocate, Allocate, Preempt, Shape, Taking, IsGrant, PlanChunk;
    var t := q.sched;
    SoundIsShaped(t);
    ids', chunks' := ids, chunks;
    if t.waiting != [] && q.budget > 0 && |t.running| < t.cfg.maxRunning {
      var id := t.waiting[0];
      var chunk := PlanChunk(t.cfg, Req(t, id), q.budget);
      HeadPlanned(s, p, q, ids, chunks, paid);
      if chunk > 0 {
        var need := if t.cfg.chunkedPrefill then chunk else |Req(t, id).prompt|;
        if CanAllocate(t.cache, need, t.cfg.watermark) {
          AdmitOneKeeps(q, limit, newly, false, chunk);
          var toks := Req(t, id).prompt[..Min(chunk, |Req(t, id).prompt|)];
          var cache := Allocate(t.cache, id, toks, t.cfg.watermark).cache;
          TakingNext(s, p, q, ids, chunks, paid, cache, chunk);
          ids', chunks' := AdmissionsTaken(s, p, Filling(q.(sched := Admitted(t, cache)), id, chunk), ids + [id],
            chunks + [chunk], paid, limit, newly[id := chunk]);
        } else if t.running != [] {
          PreemptInKeeps(q, limit, newly, false);
          TakingGivesWay(s, p, q, ids, chunks, paid);
          ids', chunks' := AdmissionsTaken(s, p, PreemptIn(q), ids, chunks, paid, limit,
            newly - {t.running[|t.running| - 1]});
        } else {
          assert Refused(s, q, chunk);
        }
      }
    }
  }

  /** What the plan gives the first one waiting, and the blocks it then asks for. */
  lemma HeadPlanned(s: Sched, p: Pass, q: Pass, ids: seq<SeqId>, chunks: seq<nat>, paid: seq<nat>)
    requires Sound(q.sched) && Taking(s, p, q, ids, chunks, paid) && q.sched.waiting != [] && q.budget > 0
    ensures var id := q.sched.waiting[0];
      var chunk := PlanChunk(q.sched.cfg, Req(q.sched, id), q.budget);
      && Req(q.sched, id).prompt == Whole(s, id) && s.cfg == q.sched.cfg && q.sched.cache.blockSize > 0
      && chunk <= q.budget
      && IsGrant(s.cfg, |Whole(s, id)|, q.budget, if chunk <= 0 then 0 else chunk)
  {
    WaitingRemaining(s, q);
    PlanIsGrant(q.sched.cfg, Req(q.sched, q.sched.waiting[0]), q.budget);
  }

  // ----- the pass -----

  /** The pass r over s: the last of those running gave way to the decodes, latest first, and n remain; of
      these the ones whose prefill is done decode in order, then the others go on prefilling by `grants`,
      then the newcomers `ids` begin with `chunks`. */
  ghost predicate Serves(s: Sched, r: Pass, n: nat, grants: seq<nat>, ids: seq<SeqId>, chunks: seq<nat>)
    requires Shape(s.cache)
  {
    && DecodesInOrder(s, r, n) && Yields(s, r, n)
    && PrefillsInOrder(s, r, n, grants)
    && Newcomers(s, s.cfg.maxBatchedTokens - |r.batch.decode| - Total(grants), ids, chunks)
    && r.batch.prefill == Granted(s.running[..n], grants) + ids
    && r.budget == s.cfg.maxBatchedTokens - |r.batch.decode| - Total(grants) - Total(chunks)
    && Recorded(r.batch.chunkSizes, r.batch.prefill, Paid(grants) + chunks)
    && Line(r.sched) == Line(s) && HadToWait(s, r, ids) && LastOut(s, r)
    && r.sched.finished == s.finished && r.sched.aborted == s.aborted
    && n + |ids| == |r.sched.running| + |r.batch.preempted| - (|s.running| - n)
    && (|r.batch.preempted| == |s.running| - n ==> n <= |r.sched.running| && ids == Line(s)[n..|r.sched.running|])
    && Remembered(s, r)
  }

  /** Decodes are served in order of admission, and only a spent budget cuts them short. */
  ghost predicate DecodesInOrder(s: Sched, r: Pass, n: nat) {
    && n <= |s.running| && |r.batch.decode| <= s.cfg.maxBatchedTokens
    && r.batch.decode <= Done(s, s.running[..n])
    && (r.batch.decode == Done(s, s.running[..n]) || |r.batch.decode| == s.cfg.maxBatchedTokens)
  }

  /** Those who gave way to decodes: the last admitted, and only for want of a block. */
  ghost predicate Yields(s: Sched, r: Pass, n: nat)
    requires Shape(s.cache)
  {
    && n <= |s.running| && |s.running| - n <= |r.batch.preempted|
    && (forall j :: 0 <= j < |s.running| - n ==> r.batch.preempted[j] == s.running[|s.running| - 1 - j])
    && (n < |s.running| ==> !CanAllocate(s.cache, 1, s.cfg.watermark))
    && |s.running| - n <= |r.batch.decode| + 1
  }

  /** The j-th of those running gets its grant out of what the decodes and those before it have left. */
  ghost predicate PrefillsInOrder(s: Sched, r: Pass, n: nat, grants: seq<nat>) {
    && n <= |s.running| && |grants| == n
    && forall j :: 0 <= j < n ==> PrefillInTurn(s, r, grants, j)
  }

  ghost predicate PrefillInTurn(s: Sched, r: Pass, grants: seq<nat>, j: nat) {
    && j < |s.running| && j < |grants|
    && var left := s.cfg.maxBatchedTokens - |r.batch.decode| - Total(grants[..j]);
    IsGrant(s.cfg, Remaining(s, s.running[j]), left, grants[j])
  }

  lemma StartsTurned(s: Sched)
    requires Shape(s.cache)
    ensures Turned(s, Pass(s, EMPTY_BATCH, s.cfg.maxBatchedTokens, false), 0)
  {
    assert s.running[|s.running|..] == [];
  }

  lemma {:induction false} DonePrefix(s: Sched, ids: seq<SeqId>, i: nat)
    requires i <= |ids|
    ensures Done(s, ids[..i]) <= Done(s, ids)
    decreases |ids| - i
  {
    if i < |ids| {
      DoneNext(s, ids, i);
      DonePrefix(s, ids, i + 1);
    } else {
      assert ids[..i] == ids;
    }
  }

  lemma DecodesStand(s: Sched, p: Pass, k: nat, r: Pass)
    requires Turned(s, p, k) && (k == |s.running| || p.budget == 0) && r.batch.decode == p.batch.decode
    ensures DecodesInOrder(s, r, |p.sched.running|)
  {
    hide GaveWay, Remembered, CanAllocate, Shape, Done;
    var ids := s.running[..|p.sched.running|];
    var i := Min(k, |ids|);
    DonePrefix(s, ids, i);
    assert s.running[..i] == ids[..i];
    assert i == |ids| ==> ids[..i] == ids;
  }

  lemma YieldsStand(s: Sched, p: Pass, k: nat, r: Pass)
    requires Turned(s, p, k) && r.batch.decode == p.batch.decode && p.batch.preempted <= r.batch.preempted
    ensures Yields(s, r, |p.sched.running|)
  {
    hide Remembered, CanAllocate, Done;
  }

  lemma PrefillsStand(s: Sched, p: Pass, k: nat, q: Pass, grants: seq<nat>, r: Pass)
    requires Turned(s, p, k) && NoDup(s.running) && GoneOn(p, q, p.sched.running, grants)
    requires r.batch.decode == p.batch.decode
    ensures PrefillsInOrder(s, r, |p.sched.running|, grants)
  {
    hide Remembered, CanAllocate, Done, Granted, Paid, Recorded, IsGrant, Shape;
    forall j: nat | j < |p.sched.running| ensures PrefillInTurn(s, r, grants, j) {
      assert InTurn(p, p.sched.running, grants, j);
      var id := s.running[j];
      assert id !in s.running[|p.sched.running|..];
    }
  }

  lemma PassAssembled(s: Sched, p: Pass, k: nat, q: Pass, grants: seq<nat>, r: Pass, ids: seq<SeqId>, chunks: seq<nat>)
    requires NoDup(s.running) && Turned(s, p, k) && (k == |s.running| || p.budget == 0)
    requires GoneOn(p, q, p.sched.running, grants) && Taking(s, q, r, ids, chunks, Paid(grants))
    ensures Serves(s, r, |p.sched.running|, grants, ids, chunks)
  {
    hide Remembered, CanAllocate, Done, Granted, Paid, Recorded, Newcomers, Shape, Yields, DecodesInOrder, Yields;
    hide PrefillsInOrder;
    DecodesStand(s, p, k, r);
    YieldsStand(s, p, k, r);
    PrefillsStand(s, p, k, q, grants, r);
    assert Line(q.sched) == Line(s);
  }

  /** A whole pass serves everybody it can, in order, and stops only when nobody else can be admitted. */
  lemma PassServes(s: Sched) returns (n: nat, grants: seq<nat>, ids: seq<SeqId>, chunks: seq<nat>)
    requires Sound(s)
    ensures Shape(s.cache) && Serves(s, Schedule(s), n, grants, ids, chunks) && AdmissionOver(s, Schedule(s))
  {
    hide Conserved, HistoriesOk, DecodePhase, PrefillPhase, AdmitPhase, Turned, GoneOn, Taking, AdmissionOver, Serves;
    hide PassOk, Sound;
    SoundIsShaped(s);
    PartsOfSound(s);
    SchedulerRepeats.RunningDistinct(s);
    LineDistinct(s);
    StartsTurned(s);
    var limit := s.cfg.maxBatchedTokens;
    var p0 := Pass(s, EMPTY_BATCH, limit, false);
    assert s.running[0..] == s.running;
    var k := DecodesServed(s, p0, 0);
    var p := DecodePhase(p0, s.running);
    StartsOk(s);
    DecodePhaseKeeps(p0, s.running, limit, false);
    grants := StartsGoing(s, p, k);
    PrefillsKeep(p, limit);
    var q := PrefillPhase(p, p.sched.running);
    StartsTaking(s, p, k, q, grants);
    ids, chunks := AdmissionsTaken(s, q, q, [], [], Paid(grants), limit, map[]);
    n := |p.sched.running|;
    PassAssembled(s, p, k, q, grants, AdmitPhase(q), ids, chunks);
  }

  lemma PartsOfSound(s: Sched)
    requires Sound(s)
    ensures Conserved(s) && HistoriesOk(s)
  {
  }

  lemma StartsOk(s: Sched)
    requires Sound(s)
    ensures PassOk(Pass(s, EMPTY_BATCH, s.cfg.maxBatchedTokens, false), s.cfg.maxBatchedTokens, map[], false)
  {
    hide Sound;
    assert Sum(EMPTY_BATCH.chunkSizes) == 0;
  }

  lemma PrefillsKeep(p: Pass, limit: nat)
    requires PassOk(p, limit, map[], false)
    ensures PassOk(PrefillPhase(p, p.sched.running), limit, map[], false)
  {
    SoundIsShaped(p.sched);
    hide Sound, WithinBudget, BatchOk;
    PrefillPhaseKeeps(p, p.sched.running, limit, false);
  }

  lemma StartsGoing(s: Sched, p: Pass, k: nat) returns (grants: seq<nat>)
    requires Turned(s, p, k)
    ensures GoneOn(p, PrefillPhase(p, p.sched.running), p.sched.running, grants)
  {
    var ids := p.sched.running;
    assert ids[..0] == [] && ids[0..] == ids;
    grants := PrefillsGoOn(p, p, ids, 0, []);
  }

  lemma StartsTaking(s: Sched, p: Pass, k: nat, q: Pass, grants: seq<nat>)
    requires Turned(s, p, k) && GoneOn(p, q, p.sched.running, grants) && NoDup(s.running)
    ensures Taking(s, q, q, [], [], Paid(grants))
  {
    hide CanAllocate, Done, Recorded, Granted, Paid, Remaining, Remembered, IsGrant, NoDup;
    HoldsAlike(s, p, q);
    assert Paid(grants) + [] == Paid(grants);
    YieldedAreLast(s, p, k, q);
  }

  /** The elements from place n on, listed from the last, are those of the tail and no others. */
  lemma TailListed(ids: seq<SeqId>, n: nat, back: seq<SeqId>)
    requires NoDup(ids) && n <= |ids| && |back| == |ids| - n
    requires forall j :: 0 <= j < |ids| - n ==> back[j] == ids[|ids| - 1 - j]
    ensures forall id :: id in ids[n..] ==> id in back
    ensures forall i: nat | i < |ids| :: ids[i] in back <==> i >= n
  {
    forall i: nat | i < |ids| ensures ids[i] in back <==> i >= n {
      if i >= n {
        assert back[|ids| - 1 - i] == ids[i];
      }
    }
  }

  lemma YieldedAreLast(s: Sched, p: Pass, k: nat, q: Pass)
    requires Turned(s, p, k) && q.sched == p.sched && q.batch.preempted == p.batch.preempted && NoDup(s.running)
    ensures HadToWait(s, q, []) && LastOut(s, q)
  {
    hide CanAllocate, Done, Remaining, Remembered, NoDup;
    var n := |p.sched.running|;
    TailListed(s.running, n, q.batch.preempted);
    assert Line(q.sched) == Line(s);
    assert Youngest(s, q, n);
  }

  /** The pass r over s serves everybody it can, in order. */
  ghost predicate ServesInOrder(s: Sched, r: Pass) {
    && Shape(s.cache) && AdmissionOver(s, r)
    && exists n: nat, grants: seq<nat>, ids: seq<SeqId>, chunks: seq<nat> :: Serves(s, r, n, grants, ids, chunks)
  }

  lemma ScheduleServesInOrder(s: Sched)
    requires Sound(s)
    ensures Shape(s.cache) && ServesInOrder(s, Schedule(s))
  {
    hide Serves, Sound, AdmissionOver, Schedule;
    var n, grants, ids, chunks := PassServes(s);
  }

  // ----- what that means for one request -----

  lemma {:induction false} DoneHas(s: Sched, ids: seq<SeqId>, id: SeqId)
    ensures id in Done(s, ids) <==> id in ids && Remaining(s, id) <= 0
  {
    if ids != [] {
      var n := |ids| - 1;
      assert ids == ids[..n] + [ids[n]];
      DoneHas(s, ids[..n], id);
    }
  }

  /** A running request whose prefill is done decodes, unless it gave way or the decodes spent the budget. */
  lemma DecodeIsServed(s: Sched, id: SeqId)
    requires Sound(s) && id in s.running && Remaining(s, id) <= 0
    ensures var b := Schedule(s).batch;
      id in b.decode || id in b.preempted || |b.decode| == s.cfg.maxBatchedTokens
  {
    hide Sound, Schedule, PrefillsInOrder, Newcomers, Recorded, Remembered, HadToWait, Granted, AdmissionOver;
    hide CanAllocate;
    var n, grants, ids, chunks := PassServes(s);
    DoneHas(s, s.running[..n], id);
    var j :| 0 <= j < |s.running| && s.running[j] == id;
    if j >= n {
      assert Schedule(s).batch.preempted[|s.running| - 1 - j] == id;
    } else {
      assert s.running[..n][j] == id;
    }
  }

  /** Nobody else decodes. */
  lemma DecodesAreReady(s: Sched, id: SeqId)
    requires Sound(s) && id in Schedule(s).batch.decode
    ensures id in s.running && Remaining(s, id) <= 0
  {
    hide Sound, Schedule, PrefillsInOrder, Newcomers, Recorded, Remembered, HadToWait, Granted, AdmissionOver;
    hide CanAllocate;
    hide Yields;
    var n, grants, ids, chunks := PassServes(s);
    DoneHas(s, s.running[..n], id);
  }

  /** The grant at j stands in place k of the list, and no later one is the same request's. */
  predicate StandsAt(all: seq<SeqId>, paid: seq<nat>, id: SeqId, g: nat, k: nat) {
    k < |all| == |paid| && all[k] == id && paid[k] == g && id !in all[k + 1..]
  }

  lemma StandsLater(all: seq<SeqId>, paid: seq<nat>, id: SeqId, g: nat, k: nat, other: SeqId, more: nat)
    requires StandsAt(all, paid, id, g, k) && other != id
    ensures StandsAt(all + [other], paid + [more], id, g, k)
  {
    assert (all + [other])[k + 1..] == all[k + 1..] + [other];
  }

  lemma {:induction false} GrantedHas(ids: seq<SeqId>, grants: seq<nat>, j: nat) returns (k: nat)
    requires j < |ids| == |grants| && NoDup(ids) && grants[j] > 0
    ensures StandsAt(Granted(ids, grants), Paid(grants), ids[j], grants[j], k)
    decreases |ids|
  {
    hide StandsAt;
    var n := |ids| - 1;
    assert ids == ids[..n] + [ids[n]] && grants == grants[..n] + [grants[n]];
    GrantedNext(ids[..n], grants[..n], ids[n], grants[n]);
    GrantedSize(ids[..n], grants[..n]);
    var front := Granted(ids[..n], grants[..n]);
    if j == n {
      k := |front|;
      StandsLast(front, Paid(grants[..n]), ids[n], grants[n]);
    } else {
      k := GrantedHas(ids[..n], grants[..n], j);
      if grants[n] > 0 {
        StandsLater(front, Paid(grants[..n]), ids[j], grants[j], k, ids[n], grants[n]);
      }
    }
  }

  lemma StandsLast(all: seq<SeqId>, paid: seq<nat>, id: SeqId, g: nat)
    requires |all| == |paid|
    ensures StandsAt(all + [id], paid + [g], id, g, |all|)
  {
  }

  lemma {:induction false} GrantedSize(ids: seq<SeqId>, grants: seq<nat>)
    requires |ids| == |grants|
    ensures |Granted(ids, grants)| == |Paid(grants)|
  {
    if ids != [] {
      GrantedSize(ids[..|ids| - 1], grants[..|ids| - 1]);
    }
  }

  /** What the batch gives a request to prefill. */
  function Chunk(b: Batch, id: SeqId): nat {
    if id in b.chunkSizes then b.chunkSizes[id] else 0
  }

  function Spent(b: Batch, ids: seq<SeqId>): nat {
    if ids == [] then 0 else Spent(b, ids[..|ids| - 1]) + Chunk(b, ids[|ids| - 1])
  }

  lemma ChunkIs(s: Sched, r: Pass, n: nat, grants: seq<nat>, ids: seq<SeqId>, chunks: seq<nat>, i: nat)
    requires Shape(s.cache) && Serves(s, r, n, grants, ids, chunks) && NoDup(Line(s))
    requires i < n && s.running[i] !in r.batch.preempted
    ensures |grants| == n && Chunk(r.batch, s.running[i]) == grants[i]
    ensures s.running[i] in r.batch.prefill <==> grants[i] > 0
  {
    hide DecodesInOrder, Newcomers, Remembered, CanAllocate, IsGrant, Yields, Granted, Paid, Total, Shape, LastOut;
    hide PrefillInTurn;
    var id, front := s.running[i], Granted(s.running[..n], grants);
    assert Line(s)[i] == id;
    NotWaitingToo(s, i);
    assert id !in ids;
    assert s.running[..n][i] == id;
    GrantedSize(s.running[..n], grants);
    if grants[i] > 0 {
      var k := GrantedHas(s.running[..n], grants, i);
      RecordedFront(r.batch.chunkSizes, front, Paid(grants), ids, chunks, id, k);
    } else {
      GrantedOnly(s.running[..n], grants, i);
    }
  }

  lemma RecordedFront(sizes: map<SeqId, nat>, front: seq<SeqId>, paid: seq<nat>, ids: seq<SeqId>, chunks: seq<nat>,
      id: SeqId, k: nat)
    requires |front| == |paid| && Recorded(sizes, front + ids, paid + chunks)
    requires k < |front| && front[k] == id && id !in front[k + 1..] && id !in ids
    ensures id in sizes && sizes[id] == paid[k]
  {
    var all := front + ids;
    assert all[k + 1..] == front[k + 1..] + ids;
    assert all[k] == id && id !in all[k + 1..];
  }

  lemma NotWaitingToo(s: Sched, i: nat)
    requires NoDup(Line(s)) && i < |s.running|
    ensures s.running[i] !in s.waiting && NoDup(s.running)
  {
    forall k | 0 <= k < |s.waiting| ensures s.waiting[k] != s.running[i] {
      assert Line(s)[|s.running| + k] == s.waiting[k] && Line(s)[i] == s.running[i];
    }
    forall k, l | 0 <= k < l < |s.running| ensures s.running[k] != s.running[l] {
      assert Line(s)[k] == s.running[k] && Line(s)[l] == s.running[l];
    }
  }

  lemma {:induction false} GrantedOnly(ids: seq<SeqId>, grants: seq<nat>, j: nat)
    requires j < |ids| == |grants| && NoDup(ids) && grants[j] == 0
    ensures ids[j] !in Granted(ids, grants)
    decreases |ids|
  {
    var n := |ids| - 1;
    assert ids == ids[..n] + [ids[n]];
    if j < n {
      GrantedOnly(ids[..n], grants[..n], j);
    } else {
      GrantedAmong(ids[..n], grants[..n]);
    }
  }

  lemma {:induction false} GrantedAmong(ids: seq<SeqId>, grants: seq<nat>)
    requires |ids| == |grants|
    ensures forall id | id in Granted(ids, grants) :: id in ids
  {
    if ids != [] {
      var n := |ids| - 1;
      assert ids == ids[..n] + [ids[n]];
      GrantedAmong(ids[..n], grants[..n]);
    }
  }

  lemma {:induction false} SpentIs(s: Sched, r: Pass, n: nat, grants: seq<nat>, ids: seq<SeqId>, chunks: seq<nat>,
      j: nat, low: nat)
    requires Shape(s.cache) && Serves(s, r, n, grants, ids, chunks) && NoDup(Line(s)) && Youngest(s, r, low)
    requires j <= n && j <= low
    ensures |grants| == n && Spent(r.batch, s.running[..j]) == Total(grants[..j])
    decreases j
  {
    hide Serves, Shape;
    ServesSizes(s, r, n, grants, ids, chunks);
    if j > 0 {
      ChunkIs(s, r, n, grants, ids, chunks, j - 1);
      SpentIs(s, r, n, grants, ids, chunks, j - 1, low);
      assert s.running[..j][..j - 1] == s.running[..j - 1] && grants[..j][..j - 1] == grants[..j - 1];
    }
  }

  lemma ServesSizes(s: Sched, r: Pass, n: nat, grants: seq<nat>, ids: seq<SeqId>, chunks: seq<nat>)
    requires Shape(s.cache) && Serves(s, r, n, grants, ids, chunks)
    ensures |grants| == n <= |s.running|
    ensures forall i | 0 <= i < |s.running| && s.running[i] !in r.batch.preempted :: i < n
  {
    hide Recorded, Remembered, CanAllocate, Granted, Paid, Newcomers, DecodesInOrder, PrefillInTurn;
    forall i | n <= i < |s.running| ensures s.running[i] in r.batch.preempted {
      assert r.batch.preempted[|s.running| - 1 - i] == s.running[i];
    }
  }

  /** A running request goes on with its prefill, unless it gave way: out of what the decodes and the requests
      ahead of it have left, it gets the least of what it has to do, the chunk size and what is left. */
  lemma PrefillGoesOn(s: Sched, j: nat)
    requires Sound(s) && j < |s.running| && s.running[j] !in Schedule(s).batch.preempted
    ensures var b, id := Schedule(s).batch, s.running[j];
      && (id in b.prefill <==> Chunk(b, id) > 0)
      && IsGrant(s.cfg, Remaining(s, id), s.cfg.maxBatchedTokens - |b.decode| - Spent(b, s.running[..j]), Chunk(b, id))
  {
    hide Sound, Schedule, DecodesInOrder, Newcomers, Remembered, AdmissionOver, CanAllocate, IsGrant, Recorded;
    hide Yields, Granted, Paid, Youngest;
    var n, grants, ids, chunks := PassServes(s);
    var r := Schedule(s);
    LineDistinct(s);
    ServesSizes(s, r, n, grants, ids, chunks);
    ChunkIs(s, r, n, grants, ids, chunks, j);
    var low: nat :| Youngest(s, r, low);
    BelowLow(s, r, low, j);
    SpentIs(s, r, n, grants, ids, chunks, j, low);
    assert PrefillInTurn(s, r, grants, j);
  }

  /** A pass in which nobody gave way. */
  ghost predicate Calm(s: Sched, r: Pass, grants: seq<nat>, ids: seq<SeqId>, chunks: seq<nat>) {
    && |grants| == |s.running| <= |r.sched.running| <= |Line(s)|
    && ids == Line(s)[|s.running|..|r.sched.running|] && |chunks| == |ids|
    && |Granted(s.running, grants)| == |Paid(grants)|
    && r.batch.prefill == Granted(s.running, grants) + ids
    && Recorded(r.batch.chunkSizes, r.batch.prefill, Paid(grants) + chunks)
  }

  lemma IsCalm(s: Sched, r: Pass, n: nat, grants: seq<nat>, ids: seq<SeqId>, chunks: seq<nat>)
    requires Shape(s.cache) && Serves(s, r, n, grants, ids, chunks) && r.batch.preempted == []
    ensures n == |s.running| && Calm(s, r, grants, ids, chunks)
  {
    hide Recorded, Remembered, CanAllocate, Granted, Paid, DecodesInOrder, PrefillInTurn, IsGrant, LastOut, HadToWait;
    GrantedSize(s.running[..n], grants);
    assert s.running[..n] == s.running;
    assert |r.sched.running| <= |Line(r.sched)|;
  }

  lemma NewcomersDiffer(s: Sched, m: nat, k: nat, l: nat)
    requires NoDup(Line(s)) && |s.running| <= m <= |Line(s)| && k < l < m - |s.running|
    ensures Line(s)[|s.running|..m][l] != Line(s)[|s.running|..m][k]
  {
    assert Line(s)[|s.running| + l] != Line(s)[|s.running| + k];
  }

  lemma NewChunkIs(s: Sched, r: Pass, grants: seq<nat>, ids: seq<SeqId>, chunks: seq<nat>, j: nat)
    requires Calm(s, r, grants, ids, chunks) && NoDup(Line(s)) && |s.running| <= j < |r.sched.running|
    ensures Line(s)[j] in r.batch.prefill && Chunk(r.batch, Line(s)[j]) == chunks[j - |s.running|]
  {
    hide Granted, Paid, NoDup, Recorded, Line;
    var k := j - |s.running|;
    assert ids[k] == Line(s)[j];
    forall l | k < l < |ids| ensures ids[l] != ids[k] {
      NewcomersDiffer(s, |r.sched.running|, k, l);
    }
    RecordedBack(r.batch.chunkSizes, Granted(s.running, grants), Paid(grants), ids, chunks, k);
  }

  lemma RecordedBack(sizes: map<SeqId, nat>, front: seq<SeqId>, paid: seq<nat>, ids: seq<SeqId>, chunks: seq<nat>,
      k: nat)
    requires |front| == |paid| && Recorded(sizes, front + ids, paid + chunks)
    requires k < |ids| && forall l | k < l < |ids| :: ids[l] != ids[k]
    ensures |chunks| == |ids| && ids[k] in sizes && sizes[ids[k]] == chunks[k]
  {
    var all := front + ids;
    assert all[|front| + k + 1..] == ids[k + 1..];
    assert all[|front| + k] == ids[k] && ids[k] !in all[|front| + k + 1..];
  }

  lemma {:induction false} NewSpentIs(s: Sched, r: Pass, grants: seq<nat>, ids: seq<SeqId>, chunks: seq<nat>, j: nat)
    requires Calm(s, r, grants, ids, chunks) && NoDup(Line(s)) && |s.running| <= j <= |r.sched.running|
    requires Spent(r.batch, s.running) == Total(grants)
    ensures Spent(r.batch, Line(s)[..j]) == Total(grants) + Total(chunks[..j - |s.running|])
    decreases j
  {
    hide Recorded, Granted, Paid;
    var k := j - |s.running|;
    if k > 0 {
      NewChunkIs(s, r, grants, ids, chunks, j - 1);
      NewSpentIs(s, r, grants, ids, chunks, j - 1);
      assert Line(s)[..j][..j - 1] == Line(s)[..j - 1] && chunks[..k][..k - 1] == chunks[..k - 1];
    } else {
      assert Line(s)[..j] == s.running;
    }
  }

  lemma {:induction false} GrantedDistinct(ids: seq<SeqId>, grants: seq<nat>)
    requires |ids| == |grants| && NoDup(ids)
    ensures NoDup(Granted(ids, grants)) && forall id | id in Granted(ids, grants) :: id in ids
  {
    if ids != [] {
      var n := |ids| - 1;
      assert ids == ids[..n] + [ids[n]];
      GrantedDistinct(ids[..n], grants[..n]);
      JoinDistinct(Granted(ids[..n], grants[..n]), if grants[n] > 0 then [ids[n]] else []);
    }
  }

  lemma JoinDistinct(a: seq<SeqId>, b: seq<SeqId>)
    requires NoDup(a) && NoDup(b) && forall id | id in a :: id !in b
    ensures NoDup(a + b)
  {
    forall i, j | 0 <= i < j < |a + b| ensures (a + b)[i] != (a + b)[j] {
      if i < |a| <= j {
        assert a[i] in a && b[j - |a|] in b;
      }
    }
  }

  lemma DistinctEnds(q: seq<SeqId>, i: nat, j: nat)
    requires NoDup(q) && i <= j <= |q|
    ensures NoDup(q[i..j]) && forall id | id in q[..i] :: id !in q[i..j]
  {
    forall k, l | 0 <= k < l < j - i ensures q[i..j][k] != q[i..j][l] {
      assert q[i + k] != q[i + l];
    }
  }

  lemma CalmStaysRunning(s: Sched, r: Pass, grants: seq<nat>, ids: seq<SeqId>, chunks: seq<nat>)
    requires Calm(s, r, grants, ids, chunks) && Line(r.sched) == Line(s) && NoDup(Line(s))
    requires forall id | id in Granted(s.running, grants) :: id in s.running
    ensures forall id | id in r.batch.prefill || id in s.running :: id in r.sched.running && id !in r.sched.waiting
  {
    hide Recorded, Granted, Paid;
    var l, m := Line(s), |r.sched.running|;
    assert l[..m] == r.sched.running && l[m..] == r.sched.waiting;
    assert l[..|s.running|] == s.running;
    DistinctEnds(l, m, |l|);
    forall id | id in r.batch.prefill || id in s.running ensures id in l[..m] {
      if id in s.running {
        var i :| 0 <= i < |s.running| && s.running[i] == id;
        assert l[..m][i] == id;
      } else {
        var k :| 0 <= k < |ids| && ids[k] == id;
        assert l[..m][|s.running| + k] == id;
      }
    }
  }

  /** When nobody gives way, nobody stands twice in the batch. */
  lemma CalmIsDistinct(s: Sched)
    requires Sound(s) && Schedule(s).batch.preempted == []
    ensures NoDup(Schedule(s).batch.prefill)
    ensures forall id | id in Schedule(s).batch.prefill || id in s.running ::
      id in Schedule(s).sched.running && id !in Schedule(s).sched.waiting
  {
    hide Sound, Schedule, DecodesInOrder, Remembered, AdmissionOver, CanAllocate, IsGrant, Recorded, Yields, Granted;
    hide Paid, Youngest;
    var n, grants, ids, chunks := PassServes(s);
    var r := Schedule(s);
    LineDistinct(s);
    IsCalm(s, r, n, grants, ids, chunks);
    assert Line(s)[..|s.running|] == s.running;
    DistinctEnds(Line(s), 0, |s.running|);
    DistinctEnds(Line(s), |s.running|, |r.sched.running|);
    GrantedDistinct(s.running, grants);
    JoinDistinct(Granted(s.running, grants), ids);
    CalmStaysRunning(s, r, grants, ids, chunks);
  }

  /** When nobody gives way, whoever is admitted comes next in line and begins with the least of its whole
      prompt, the chunk size and what all those ahead of it have left of the budget. */
  lemma NewcomerBegins(s: Sched, j: nat)
    requires Sound(s) && Schedule(s).batch.preempted == []
    requires |s.running| <= j < |Schedule(s).sched.running|
    ensures j < |Line(s)|
    ensures var b, id := Schedule(s).batch, Line(s)[j];
      && id in b.prefill && Chunk(b, id) > 0
      && IsGrant(s.cfg, |Whole(s, id)|, s.cfg.maxBatchedTokens - |b.decode| - Spent(b, Line(s)[..j]), Chunk(b, id))
  {
    hide Sound, Schedule, DecodesInOrder, Remembered, AdmissionOver, CanAllocate, IsGrant, Recorded, Yields, Granted;
    hide Paid, Youngest;
    var n, grants, ids, chunks := PassServes(s);
    var r := Schedule(s);
    LineDistinct(s);
    IsCalm(s, r, n, grants, ids, chunks);
    var low: nat :| Youngest(s, r, low);
    AllBelow(s, r, low);
    SpentIs(s, r, n, grants, ids, chunks, n, low);
    assert s.running[..n] == s.running && grants[..n] == grants;
    NewChunkIs(s, r, grants, ids, chunks, j);
    NewSpentIs(s, r, grants, ids, chunks, j);
    assert NewInTurn(s, s.cfg.maxBatchedTokens - |r.batch.decode| - Total(grants), ids, chunks, j - n);
  }

  lemma AllBelow(s: Sched, r: Pass, low: nat)
    requires Youngest(s, r, low) && r.batch.preempted == []
    ensures low == |s.running|
  {
    if s.running != [] {
      assert s.running[Min(low, |s.running| - 1)] !in r.batch.preempted;
    }
  }

  lemma BelowLow(s: Sched, r: Pass, low: nat, j: nat)
    requires Youngest(s, r, low) && j < |s.running| && s.running[j] !in r.batch.preempted
    ensures j < low
  {
  }

  lemma LineDistinct(s: Sched)
    requires Sound(s)
    ensures NoDup(Line(s))
  {
    PartsOfSound(s);
    hide Sound;
    var l := Line(s);
    forall i, j | 0 <= i < j < |l| ensures l[i] != l[j] {
      assert Places(s, l[i]) == if l[i] in s.reqs then 1 else 0;
      assert multiset(l) == multiset(s.running) + multiset(s.waiting);
      assert multiset(l)[l[i]] <= 1;
      if l[i] == l[j] {
        SchedulerRepeats.TwiceInside(l, i, j);
      }
    }
  }
}
