/** The sampler's steps, which overwrite the logits in place. */
module Sampler {
  import opened Prelude
  import opened Ranking
  import opened SamplerModel
  import SamplerShares

  method AnyOf<T>(s: set<T>) returns (x: T)
    requires s != {}
    ensures x in s
  {
    x :| x in s;
  }

  method ApplyLogitBias(logits: array<Logit>, bias: map<int, real>)
    modifies logits
    ensures logits[..] == Biased(old(logits[..]), bias)
  {
    var rest: set<int> := bias.Keys;
    while rest != {}
      invariant rest <= bias.Keys
      invariant forall i :: 0 <= i < logits.Length ==>
        logits[i] == if i in bias && i !in rest then Plus(old(logits[i]), bias[i]) else old(logits[i])
      decreases rest
    {
      var tid := AnyOf(rest);
      if 0 <= tid < logits.Length {
        logits[tid] := Plus(logits[tid], bias[tid]);
      }
      rest := rest - {tid};
    }
  }

  method Suppress(logits: array<Logit>, ids: seq<int>)
    modifies logits
    ensures logits[..] == Suppressed(old(logits[..]), ids)
  {
    for k := 0 to |ids|
      invariant forall i :: 0 <= i < logits.Length ==>
        logits[i] == if i in ids[..k] then NegInf else old(logits[i])
    {
      assert ids[..k + 1] == ids[..k] + [ids[k]];
      if 0 <= ids[k] < logits.Length {
        logits[ids[k]] := NegInf;
      }
    }
    assert ids[..|ids|] == ids;
  }

  ghost predicate Counts(counts: map<int, nat>, s: seq<int>) {
    forall id :: (id in counts <==> Count(s, id) > 0) && (id in counts ==> counts[id] == Count(s, id))
  }

  method CountTokens(window: seq<int>) returns (counts: map<int, nat>)
    ensures Counts(counts, window)
  {
    counts := map[];
    for k := 0 to |window|
      invariant Counts(counts, window[..k])
    {
      var tid := window[k];
      assert window[..k + 1][..k] == window[..k];
      counts := counts[tid := (if tid in counts then counts[tid] else 0) + 1];
    }
    assert window[..|window|] == window;
  }

  method ApplyPenalties(logits: array<Logit>, history: seq<int>, c: Config)
    requires c.repetition > 0.0
    modifies logits
    ensures logits[..] == PenalizedAll(old(logits[..]), history, c)
  {
    hide Penalized;
    if Unpenalized(c) {
      return;
    }
    var window := Window(history, c.window);
    var counts := CountTokens(window);
    var rest: set<int> := counts.Keys;
    while rest != {}
      invariant rest <= counts.Keys
      invariant forall i :: 0 <= i < logits.Length ==>
        logits[i] == if i in counts && i !in rest then Penalized(old(logits[i]), counts[i], c) else old(logits[i])
      decreases rest
    {
      var tid := AnyOf(rest);
      if 0 <= tid < logits.Length {
        logits[tid] := Penalized(logits[tid], counts[tid], c);
      }
      rest := rest - {tid};
    }
  }

  method ApplyTemperature(logits: array<Logit>, temperature: real)
    modifies logits
    ensures logits[..] == Cooled(old(logits[..]), temperature)
  {
    if temperature == 0.0 || temperature == 1.0 {
      return;
    }
    for i := 0 to logits.Length
      invariant forall k :: i <= k < logits.Length ==> logits[k] == old(logits[k])
      invariant forall k :: 0 <= k < i ==> logits[k] == Cooled(old(logits[..]), temperature)[k]
    {
      logits[i] := if logits[i].Fin? then Fin(logits[i].x / temperature) else NegInf;
    }
  }

  method TopKFilter(logits: array<Logit>, k: int)
    modifies logits
    ensures logits[..] == TopK(old(logits[..]), k)
  {
    if k <= 0 || k >= logits.Length {
      return;
    }
    var threshold := Descending(logits[..])[k - 1];
    for i := 0 to logits.Length
      invariant forall j :: i <= j < logits.Length ==> logits[j] == old(logits[j])
      invariant forall j :: 0 <= j < i ==> logits[j] == CutBelow(old(logits[..]), threshold)[j]
    {
      if Above(threshold, logits[i]) {
        logits[i] := NegInf;
      }
    }
  }

  /** The nucleus: tokens in order until their mass reaches p, always at least one. */
  method Keep(probs: seq<real>, order: seq<nat>, p: real) returns (n: nat)
    requires Indices(order, |probs|)
    ensures n == Nucleus(probs, order, p, 0, 0.0)
  {
    var cumulative := 0.0;
    n := 0;
    while n < |order|
      invariant n <= |order|
      invariant Nucleus(probs, order, p, n, cumulative) == Nucleus(probs, order, p, 0, 0.0)
    {
      cumulative := cumulative + probs[order[n]];
      n := n + 1;
      if cumulative >= p {
        return;
      }
    }
  }

  method TopPFilter(w: real -> real, logits: array<Logit>, p: real)
    modifies logits
    ensures logits[..] == TopP(w, old(logits[..]), p)
  {
    hide Softmax, Nucleus;
    if p >= 1.0 {
      return;
    }
    var probs := Softmax(w, logits[..]);
    var order := Ranked(probs);
    var n := Keep(probs, order, p);
    var kept := order[..n];
    for i := 0 to logits.Length
      invariant forall j :: i <= j < logits.Length ==> logits[j] == old(logits[j])
      invariant forall j :: 0 <= j < i ==> logits[j] == CutOutside(old(logits[..]), kept)[j]
    {
      if i !in kept {
        logits[i] := NegInf;
      }
    }
    assert logits[..] == CutOutside(old(logits[..]), kept);
  }

  method MinPFilter(w: real -> real, logits: array<Logit>, minP: real)
    requires logits.Length > 0
    modifies logits
    ensures logits[..] == MinP(w, old(logits[..]), minP)
  {
    hide Softmax, Times, Largest;
    if minP <= 0.0 {
      return;
    }
    var probs := Softmax(w, logits[..]);
    var cutoff := Times(minP, Largest(probs));
    for i := 0 to logits.Length
      invariant forall j :: i <= j < logits.Length ==> logits[j] == old(logits[j])
      invariant forall j :: 0 <= j < i ==> logits[j] == CutLight(old(logits[..]), probs, cutoff)[j]
    {
      if probs[i] < cutoff {
        logits[i] := NegInf;
      }
    }
    assert logits[..] == CutLight(old(logits[..]), probs, cutoff);
  }

  method MultinomialDraw(probs: seq<real>, r: real) returns (id: Option<nat>)
    ensures id == Multinomial(probs, r)
  {
    var acc := 0.0;
    for i := 0 to |probs|
      invariant DrawFrom(probs, r, i, acc) == DrawFrom(probs, r, 0, 0.0)
    {
      acc := acc + probs[i];
      if r < acc {
        return Some(i);
      }
    }
    var n: nat := |probs|;
    while n > 0
      invariant n <= |probs| && LastPositive(probs, n) == LastPositive(probs, |probs|)
    {
      n := n - 1;
      if probs[n] > 0.0 {
        return Some(n);
      }
    }
    id := None;
  }

  /** The whole pipeline on a copy of the logits. */
  method SampleToken(w: real -> real, logits: seq<Logit>, history: seq<int>, c: Config, r: real)
    returns (id: Option<nat>)
    requires c.repetition > 0.0
    ensures id == Sample(w, logits, history, c, r)
    ensures Exponential(w) && Sane(c) && 0.0 <= r < 1.0 ==>
      SamplerShares.DrawnInShares(w, logits, history, c, r, id)
  {
    if Exponential(w) && Sane(c) && 0.0 <= r < 1.0 {
      SamplerShares.SampleDrawsInShares(w, logits, history, c, r);
    }
    hide Biased, Suppressed, PenalizedAll, Cooled, TopK, TopP, MinP, Softmax, Multinomial, ArgMax;
    if logits == [] {
      return None;
    }
    var work := new Logit[|logits|](i requires 0 <= i < |logits| => logits[i]);
    assert work[..] == logits;
    ApplyLogitBias(work, c.bias);
    Suppress(work, c.suppressed);
    ApplyPenalties(work, history, c);
    if c.temperature == 0.0 {
      return Some(ArgMax(work[..]));
    }
    ApplyTemperature(work, c.temperature);
    TopKFilter(work, c.topK);
    TopPFilter(w, work, c.topP);
    MinPFilter(w, work, c.minP);
    id := MultinomialDraw(Softmax(w, work[..]), r);
  }
}
