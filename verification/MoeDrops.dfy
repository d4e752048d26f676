/** When no batch of a size can drop a token, whatever its logits: a batch that crowds the same
    experts drops one as soon as the condition fails. */
module MoeDrops {
  import opened Prelude
  import opened Ranking
  import opened SamplerModel
  import opened MoeModel
  import opened MoeProofs

  /** The capacity holds out for n tokens: it cannot be exhausted by the tokens before the last, or
      not in all experts but perToken - 1. */
  predicate HoldsOut(c: MoeConfig, cap: int, n: nat) {
    n == 0 || cap > n - 1 || Product(cap, c.experts - c.perToken + 1) > Product(c.perToken, n - 1)
  }

  /** No batch of n tokens drops one. */
  ghost predicate DropFree(w: real -> real, c: MoeConfig, n: nat)
    requires Legal(c)
  {
    forall rows: seq<seq<real>> | |rows| == n && Square(c, rows, n) ::
      var r := Route(w, c, rows); r.Routed? && r.decision.dropped == []
  }

  // ----- a batch that crowds the first experts -----

  /** The experts to crowd: all but perToken - 1. */
  function Crowd(c: MoeConfig): nat
    requires Legal(c)
  {
    c.experts - c.perToken + 1
  }

  /** Logits that prefer the least loaded of the first s experts, and any of them to the others. */
  function Eager(load: seq<nat>, s: nat): (row: seq<real>)
    ensures |row| == |load|
  {
    seq(|load|, e requires 0 <= e < |load| => if e < s then -(load[e] as real) else -(Sum(load) as real) - 1.0)
  }

  function Rows(w: real -> real, c: MoeConfig, cap: int, n: nat): (rows: seq<seq<real>>)
    requires Legal(c)
    ensures |rows| == n && Square(c, rows, n)
  {
    if n == 0 then []
    else
      var before := Rows(w, c, cap, n - 1);
      before + [Eager(RouteUpTo(w, c, before, cap, n - 1).load, Crowd(c))]
  }

  /** The decision for the first n tokens depends on them alone. */
  lemma {:induction false} SameStart(w: real -> real, c: MoeConfig, a: seq<seq<real>>, b: seq<seq<real>>,
      cap: int, n: nat)
    requires n <= |a| && n <= |b| && a[..n] == b[..n] && Square(c, a, n) && Square(c, b, n)
    ensures RouteUpTo(w, c, a, cap, n) == RouteUpTo(w, c, b, cap, n)
  {
    hide Chosen, WeightsOf, Counted;
    if n > 0 {
      assert a[n - 1] == a[..n][n - 1] == b[n - 1];
      assert a[..n - 1] == a[..n][..n - 1] == b[..n - 1];
      SameStart(w, c, a, b, cap, n - 1);
    }
  }

  /** The first s experts are full. */
  predicate AllFull(load: seq<nat>, s: nat, cap: int)
    requires s <= |load|
  {
    forall e :: 0 <= e < s ==> load[e] >= cap
  }

  predicate Balanced(load: seq<nat>, s: nat)
    requires s <= |load|
  {
    forall e, f :: 0 <= e < s && 0 <= f < s ==> load[e] <= load[f] + 1
  }

  lemma {:induction false} ElementBelowSum(load: seq<nat>, e: nat)
    requires e < |load|
    ensures load[e] <= Sum(load)
  {
    if e < |load| - 1 {
      ElementBelowSum(load[..|load| - 1], e);
    }
  }

  lemma EagerBeats(load: seq<nat>, s: nat, e: nat, f: nat)
    requires e < s <= |load| && f < |load|
    ensures f >= s || load[e] < load[f] ==> Beats(Eager(load, s), e, f)
  {
    ElementBelowSum(load, e);
  }

  /** One more eager token keeps the loads of the crowd balanced. */
  lemma StaysBalanced(w: real -> real, c: MoeConfig, load: seq<nat>, cap: int)
    requires Exponential(w) && Legal(c) && c.perToken > 0 && |load| == c.experts && Balanced(load, Crowd(c))
    ensures Balanced(Counted(load, Chosen(w, c, Eager(load, Crowd(c)), load, cap)), Crowd(c))
  {
    hide Chosen, Counted, Eager, Exponential, Beats;
    var s := Crowd(c);
    var row := Eager(load, s);
    var chosen := Chosen(w, c, row, load, cap);
    TokenGetsBest(w, c, row, load, cap);
    forall e, f | 0 <= e < s && 0 <= f < s
      ensures Counted(load, chosen)[e] <= Counted(load, chosen)[f] + 1
    {
      CountedAt(load, chosen, e);
      CountedAt(load, chosen, f);
      EagerBeats(load, s, f, e);
    }
  }

  lemma {:induction false} SumBumped(a: seq<nat>, b: seq<nat>)
    requires |a| == |b| && forall e :: 0 <= e < |a| ==> b[e] == a[e] + 1
    ensures Sum(b) == Sum(a) + |a|
  {
    if a != [] {
      SumBumped(a[..|a| - 1], b[..|b| - 1]);
    }
  }

  lemma {:induction false} CountedWithin(load: seq<nat>, chosen: seq<nat>, s: nat)
    requires s <= |load| && Indices(chosen, s)
    ensures Indices(chosen, |load|) && Counted(load, chosen)[..s] == Counted(load[..s], chosen)
    decreases |chosen|
  {
    if chosen != [] {
      var x := chosen[0];
      assert load[x := load[x] + 1][..s] == load[..s][x := load[..s][x] + 1];
      CountedWithin(load[x := load[x] + 1], chosen[1..], s);
    }
  }

  lemma DistinctFit(chosen: seq<nat>, s: nat)
    requires NoDup(chosen) && Indices(chosen, s)
    ensures |chosen| <= s
  {
    CountedFits(Zeros(s), chosen);
  }

  lemma CountedFits(load: seq<nat>, chosen: seq<nat>)
    requires Indices(chosen, |load|) && NoDup(chosen) && forall e :: 0 <= e < |load| ==> load[e] == 0
    ensures |chosen| <= |load|
  {
    hide Counted, Sum;
    SumCounted(load, chosen);
    forall e: nat | e < |load| ensures Counted(load, chosen)[e] <= 1 {
      CountedAt(load, chosen, e);
    }
    SumAtMost(Counted(load, chosen), 1);
    ProductOne(|load|);
  }

  lemma ProductOne(n: int)
    ensures Product(1, n) == n
  {
  }

  lemma {:induction false} SumAtMost(load: seq<nat>, cap: nat)
    requires forall e :: 0 <= e < |load| ==> load[e] <= cap
    ensures Sum(load) <= Product(cap, |load|)
    ensures (exists e :: 0 <= e < |load| && load[e] < cap) ==> Sum(load) < Product(cap, |load|)
  {
    if load != [] {
      var rest := load[..|load| - 1];
      SumAtMost(rest, cap);
      ProductNext(cap, |load| - 1);
      assert (exists e :: 0 <= e < |load| && load[e] < cap) && load[|load| - 1] >= cap ==>
        exists e :: 0 <= e < |rest| && rest[e] < cap;
    }
  }

  /** How many experts of the crowd an eager token takes while one of them has room. */
  function Share(c: MoeConfig): nat
    requires Legal(c)
  {
    Min(c.perToken, Crowd(c))
  }

  /** One more eager token fills the crowd, or takes its share of it. */
  lemma FillsOrTakes(w: real -> real, c: MoeConfig, load: seq<nat>, cap: nat)
    requires Exponential(w) && Legal(c) && c.perToken > 0 && |load| == c.experts && Balanced(load, Crowd(c))
    requires forall e :: 0 <= e < |load| ==> load[e] <= cap
    ensures var next, s := Counted(load, Chosen(w, c, Eager(load, Crowd(c)), load, cap)), Crowd(c);
      AllFull(next, s, cap) || Sum(next[..s]) == Sum(load[..s]) + Share(c)
  {
    hide Chosen, Counted, Eager, Exponential, Beats, Sum;
    var s, row := Crowd(c), Eager(load, Crowd(c));
    var chosen := Chosen(w, c, row, load, cap);
    TokenGetsBest(w, c, row, load, cap);
    if forall e: nat :: e < s && load[e] < cap ==> e in chosen {
      TakesAll(load, chosen, s, cap, c.perToken);
    } else {
      var e: nat :| e < s && load[e] < cap && e !in chosen;
      forall i | 0 <= i < |chosen| ensures chosen[i] < s {
        EagerBeats(load, s, e, chosen[i]);
        assert chosen[i] in chosen;
      }
      DistinctFit(chosen, s);
      CountedWithin(load, chosen, s);
      SumCounted(load[..s], chosen);
    }
  }

  lemma TakesAll(load: seq<nat>, chosen: seq<nat>, s: nat, cap: nat, want: nat)
    requires Indices(chosen, |load|) && NoDup(chosen) && s <= |load| && |chosen| <= want && Balanced(load, s)
    requires forall e: nat :: e < s && load[e] < cap ==> e in chosen
    requires forall i :: 0 <= i < |chosen| ==> load[chosen[i]] < cap
    requires forall e :: 0 <= e < |load| ==> load[e] <= cap
    ensures AllFull(Counted(load, chosen), s, cap) || Sum(Counted(load, chosen)[..s]) == Sum(load[..s]) + Min(want, s)
  {
    hide Counted, Sum;
    forall e: nat | e < s ensures Counted(load, chosen)[e] == load[e] + if load[e] < cap then 1 else 0 {
      CountedAt(load, chosen, e);
    }
    if forall e :: 0 <= e < s ==> load[e] < cap {
      SumBumped(load[..s], Counted(load, chosen)[..s]);
      CrowdFits(chosen, s);
    }
  }

  /** A list that contains all of the first s experts is as long. */
  lemma CrowdFits(chosen: seq<nat>, s: nat)
    requires forall e: nat :: e < s ==> e in chosen
    ensures s <= |chosen|
  {
    SubsetSize(Firsts(s), Elements(chosen));
  }

  function Firsts(s: nat): (r: set<nat>)
    ensures |r| == s && forall e: nat :: e in r <==> e < s
  {
    if s == 0 then {} else Firsts(s - 1) + {s - 1}
  }

  /** After t eager tokens the crowd is full, or has taken its share of every one of them. */
  lemma {:induction false} CrowdFills(w: real -> real, c: MoeConfig, cap: nat, t: nat)
    requires Exponential(w) && Legal(c) && c.perToken > 0
    ensures var load := RouteUpTo(w, c, Rows(w, c, cap, t), cap, t).load;
      && Balanced(load, Crowd(c)) && (forall e :: 0 <= e < |load| ==> load[e] <= cap)
      && (AllFull(load, Crowd(c), cap) || Sum(load[..Crowd(c)]) == Product(Share(c), t))
  {
    hide Exponential, RouteUpTo, Chosen, Counted, Eager, Sum, Product, Balanced, AllFull, Share;
    var rows := Rows(w, c, cap, t);
    LoadsKeep(w, c, rows, cap, t);
    LoadsFit(c, RouteUpTo(w, c, rows, cap, t), cap, t);
    if t == 0 {
      RouteNothing(w, c, rows, cap);
      Unloaded(c);
    } else {
      var before := Rows(w, c, cap, t - 1);
      CrowdFills(w, c, cap, t - 1);
      SameStart(w, c, before, rows, cap, t - 1);
      RouteNext(w, c, rows, cap, t);
      var load := RouteUpTo(w, c, before, cap, t - 1).load;
      StaysBalanced(w, c, load, cap);
      FillsOrTakes(w, c, load, cap);
      ProductNext(Share(c), t - 1);
      if AllFull(load, Crowd(c), cap) {
        StaysFull(load, Chosen(w, c, Eager(load, Crowd(c)), load, cap), Crowd(c), cap);
      }
    }
  }

  lemma LoadsFit(c: MoeConfig, d: Decision, cap: int, n: nat)
    requires LoadsOk(c, d, cap, n)
    ensures forall e :: 0 <= e < |d.load| ==> d.load[e] <= cap
  {
  }

  lemma Unloaded(c: MoeConfig)
    requires Legal(c) && c.perToken > 0
    ensures Crowd(c) <= c.experts && Balanced(Zeros(c.experts), Crowd(c))
    ensures Sum(Zeros(c.experts)[..Crowd(c)]) == Product(Share(c), 0)
  {
    assert Zeros(c.experts)[..Crowd(c)] == Zeros(Crowd(c));
    SumZeros(Crowd(c));
  }

  lemma {:induction false} StaysFull(load: seq<nat>, chosen: seq<nat>, s: nat, cap: int)
    requires Indices(chosen, |load|) && s <= |load| && AllFull(load, s, cap)
    ensures AllFull(Counted(load, chosen), s, cap)
    decreases |chosen|
  {
    if chosen != [] {
      StaysFull(load[chosen[0] := load[chosen[0]] + 1], chosen[1..], s, cap);
    }
  }

  /** When the capacity does not hold out, the tokens before the last fill the crowd. */
  lemma CrowdIsFull(w: real -> real, c: MoeConfig, cap: nat, n: nat)
    requires Exponential(w) && Legal(c) && c.perToken > 0 && n > 0 && !HoldsOut(c, cap, n)
    ensures AllFull(RouteUpTo(w, c, Rows(w, c, cap, n - 1), cap, n - 1).load, Crowd(c), cap)
  {
    hide RouteUpTo, Rows, Sum, Product, Exponential;
    CrowdFills(w, c, cap, n - 1);
    var load, s := RouteUpTo(w, c, Rows(w, c, cap, n - 1), cap, n - 1).load, Crowd(c);
    if !AllFull(load, s, cap) {
      SumAtMost(load[..s], cap);
      var e: nat :| e < s && load[e] < cap;
      assert load[..s][e] < cap;
      ProductSwaps(cap, s);
      ProductGrows(s, cap, n - 1);
    }
  }

  lemma ProductSwaps(a: int, b: int)
    ensures Product(a, b) == Product(b, a)
  {
  }

  /** So the last token of the crowding batch is dropped. */
  lemma CrowdingDrops(w: real -> real, c: MoeConfig, cap: nat, n: nat)
    requires Exponential(w) && Legal(c) && c.perToken > 0 && n > 0 && !HoldsOut(c, cap, n)
    ensures n - 1 in RouteUpTo(w, c, Rows(w, c, cap, n), cap, n).dropped
  {
    hide RouteUpTo, Exponential, Chosen, Eager, Counted, HoldsOut;
    CrowdIsFull(w, c, cap, n);
    var before, rows := Rows(w, c, cap, n - 1), Rows(w, c, cap, n);
    SameStart(w, c, before, rows, cap, n - 1);
    RouteNext(w, c, rows, cap, n);
    var load := RouteUpTo(w, c, before, cap, n - 1).load;
    var chosen := Chosen(w, c, rows[n - 1], load, cap);
    TokenGetsBest(w, c, rows[n - 1], load, cap);
    OutsideFit(chosen, Crowd(c), c.experts);
  }

  /** Distinct experts outside the crowd are fewer than a token wants. */
  lemma OutsideFit(chosen: seq<nat>, s: nat, n: nat)
    requires NoDup(chosen) && s <= n && forall i :: 0 <= i < |chosen| ==> s <= chosen[i] < n
    ensures |chosen| <= n - s
  {
    var shifted := seq(|chosen|, i requires 0 <= i < |chosen| => (chosen[i] - s) as nat);
    DistinctFit(shifted, n - s);
  }

  /** No batch of n tokens drops any, whatever the logits, exactly when the capacity holds out. */
  lemma RouteDropsExactly(w: real -> real, c: MoeConfig, n: nat)
    requires Exponential(w) && Legal(c)
    ensures DropFree(w, c, n) <==> HoldsOut(c, Capacity(c, n), n)
  {
    hide Exponential, RouteUpTo, Product, Ceiling, Rows;
    var cap := Capacity(c, n);
    if HoldsOut(c, cap, n) {
      forall rows: seq<seq<real>> | |rows| == n && Square(c, rows, n)
        ensures var r := Route(w, c, rows); r.Routed? && r.decision.dropped == []
      {
        MisfitIs(c, rows, 0);
        NothingDropped(w, c, rows, cap, n);
      }
    } else {
      WantsSome(c, cap, n);
      CrowdingDrops(w, c, cap, n);
      MisfitIs(c, Rows(w, c, cap, n), 0);
      assert !(Route(w, c, Rows(w, c, cap, n)).decision.dropped == []);
    }
  }

  lemma WantsSome(c: MoeConfig, cap: int, n: nat)
    requires Legal(c) && n > 0 && cap > 0 && !HoldsOut(c, cap, n)
    ensures c.perToken > 0
  {
    assert c.perToken == 0 ==> cap * (c.experts + 1) > 0;
  }

  /** In particular with drop policy "none", or when the capacity of all experts but perToken - 1
      covers every assignment. */
  lemma RouteDropsNothing(w: real -> real, c: MoeConfig, rows: seq<seq<real>>)
    requires Exponential(w) && Square(c, rows, |rows|) && Legal(c)
    requires c.policy.Never? || Product(Capacity(c, |rows|), c.experts - c.perToken + 1) >= Product(c.perToken, |rows|)
    ensures var r := Route(w, c, rows); r.Routed? && r.decision.dropped == []
  {
    hide Exponential, Route, Ceiling;
    ProductNext(c.perToken, |rows| - 1);
    assert c.perToken == 0 ==> Capacity(c, |rows|) * (c.experts + 1) >= Capacity(c, |rows|);
    RouteDropsExactly(w, c, |rows|);
  }
}
