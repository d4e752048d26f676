/** The router as an object: its loops and its running load. */
module Moe {
  import opened Prelude
  import opened Ranking
  import opened MoeModel
  import MoeWeights

  /** The sum of two load vectors. */
  function LoadSum(a: seq<nat>, b: seq<nat>): (r: seq<nat>)
    requires |a| == |b|
    ensures |r| == |a| && forall i :: 0 <= i < |r| ==> r[i] == a[i] + b[i]
  {
    seq(|a|, i requires 0 <= i < |a| => a[i] + b[i])
  }

  lemma {:induction false} CountedSnoc(counts: seq<nat>, chosen: seq<nat>, e: nat)
    requires Indices(chosen, |counts|) && e < |counts|
    ensures Indices(chosen + [e], |counts|)
    ensures var r := Counted(counts, chosen); Counted(counts, chosen + [e]) == r[e := r[e] + 1]
    decreases |chosen|
  {
    if chosen == [] {
      assert [e][1..] == [];
    } else {
      assert (chosen + [e])[1..] == chosen[1..] + [e];
      CountedSnoc(counts[chosen[0] := counts[chosen[0]] + 1], chosen[1..], e);
    }
  }

  /** One expert of the ranking. */
  lemma ChooseNext(ranked: seq<nat>, i: nat, counts: seq<nat>, cap: int, want: nat)
    requires Indices(ranked, |counts|) && i < |ranked| && want > 0
    ensures Choose(ranked[i..], counts, cap, want) ==
      if counts[ranked[i]] >= cap then Choose(ranked[i + 1..], counts, cap, want)
      else [ranked[i]] + Choose(ranked[i + 1..], counts, cap, want - 1)
  {
    assert ranked[i..][1..] == ranked[i + 1..];
  }

  lemma ChooseDone(ranked: seq<nat>, counts: seq<nat>, cap: int, want: nat)
    requires Indices(ranked, |counts|)
    ensures want == 0 || ranked == [] ==> Choose(ranked, counts, cap, want) == []
  {
  }

  class Router {
    const config: MoeConfig
    const weight: real -> real
    var cumulativeLoad: seq<nat>
    var steps: nat

    ghost predicate Valid()
      reads this
    {
      Legal(config) && |cumulativeLoad| == config.experts
    }

    constructor (config: MoeConfig, weight: real -> real)
      requires Legal(config)
      ensures Valid() && this.config == config && this.weight == weight
      ensures cumulativeLoad == Zeros(config.experts) && steps == 0
    {
      this.config := config;
      this.weight := weight;
      cumulativeLoad := Zeros(config.experts);
      steps := 0;
    }

    /** The experts of one token: down the ranking, skipping the full ones. */
    method ChooseExperts(ranked: seq<nat>, counts: array<nat>, cap: int) returns (chosen: seq<nat>)
      requires Indices(ranked, counts.Length) && NoDup(ranked)
      modifies counts
      ensures Indices(chosen, counts.Length)
      ensures chosen == Choose(ranked, old(counts[..]), cap, config.perToken)
      ensures counts[..] == Counted(old(counts[..]), chosen)
    {
      hide Counted, Choose;
      chosen := [];
      ghost var before := counts[..];
      CountedNothing(before);
      assert ranked[0..] == ranked;
      for i := 0 to |ranked|
        invariant |chosen| <= config.perToken && Indices(chosen, counts.Length)
        invariant chosen + Choose(ranked[i..], before, cap, config.perToken - |chosen|)
               == Choose(ranked, before, cap, config.perToken)
        invariant counts[..] == Counted(before, chosen)
        invariant forall k :: i <= k < |ranked| ==> counts[ranked[k]] == before[ranked[k]]
      {
        ChooseDone(ranked[i..], before, cap, config.perToken - |chosen|);
        if |chosen| == config.perToken {
          break;
        }
        ChooseNext(ranked, i, before, cap, config.perToken - |chosen|);
        var expert := ranked[i];
        if counts[expert] >= cap {
          continue;
        }
        CountedSnoc(before, chosen, expert);
        chosen := chosen + [expert];
        counts[expert] := counts[expert] + 1;
      }
      ChooseDone([], before, cap, config.perToken - |chosen|);
    }

    lemma CountedNothing(counts: seq<nat>)
      ensures Counted(counts, []) == counts
    {
    }

    /** The batch's decision, added to the running load; a row of the wrong length stops it and
        leaves the router alone. */
    method Route(rows: seq<seq<real>>) returns (routed: Routed)
      requires Valid()
      modifies this
      ensures Valid() && routed == MoeModel.Route(weight, config, rows)
      ensures routed.WrongLength? ==> cumulativeLoad == old(cumulativeLoad) && steps == old(steps)
      ensures routed.Routed? ==>
        cumulativeLoad == LoadSum(old(cumulativeLoad), routed.decision.load) && steps == old(steps) + 1
      ensures routed.Routed? ==> MoeWeights.OwnWeights(weight, config, rows, routed.decision)
    {
      hide Chosen, Counted, WeightsOf, Probs, Ceiling;
      var cap := Capacity(config, |rows|);
      var counts := new nat[config.experts](i => 0);
      var ids: seq<seq<nat>>, weights: seq<seq<real>>, dropped: seq<nat> := [], [], [];
      assert counts[..] == Zeros(config.experts);
      for idx := 0 to |rows|
        invariant Square(config, rows, idx) && Misfit(config, rows, idx) == Misfit(config, rows, 0)
        invariant Decision(ids, weights, dropped, counts[..]) == RouteUpTo(weight, config, rows, cap, idx)
        invariant cumulativeLoad == old(cumulativeLoad) && steps == old(steps)
      {
        var row := rows[idx];
        if |row| != config.experts {
          return WrongLength(idx);
        }
        var probs := Probs(weight, row);
        RankedSorts(probs);
        ghost var before := counts[..];
        var chosen := ChooseExperts(Ranked(probs), counts, cap);
        ChosenIs(weight, config, row, before, cap);
        if |chosen| < config.perToken {
          dropped := dropped + [idx];
        }
        weights := weights + [WeightsOf(probs, chosen, config.normalize)];
        ids := ids + [chosen];
      }
      MisfitIs(config, rows, |rows|);
      AddLoad(counts);
      steps := steps + 1;
      routed := Routed(Decision(ids, weights, dropped, counts[..]));
      MoeWeights.RoutedOwnWeights(weight, config, rows);
    }

    lemma ChosenIs(w: real -> real, c: MoeConfig, row: seq<real>, counts: seq<nat>, cap: int)
      requires |row| == |counts|
      ensures Chosen(w, c, row, counts, cap) == Choose(Ranked(Probs(w, row)), counts, cap, c.perToken)
    {
    }

    method AddLoad(counts: array<nat>)
      requires |cumulativeLoad| == counts.Length
      modifies this`cumulativeLoad
      ensures cumulativeLoad == LoadSum(old(cumulativeLoad), counts[..])
    {
      for e := 0 to counts.Length
        invariant |cumulativeLoad| == counts.Length
        invariant forall k :: 0 <= k < e ==> cumulativeLoad[k] == old(cumulativeLoad)[k] + counts[k]
        invariant forall k :: e <= k < counts.Length ==> cumulativeLoad[k] == old(cumulativeLoad)[k]
      {
        cumulativeLoad := cumulativeLoad[e := cumulativeLoad[e] + counts[e]];
      }
    }
  }
}
