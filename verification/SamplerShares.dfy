/** What the sampler's numbers mean: the share a token gets of the draw, the logits it is weighed by, and which
    tokens each filter leaves. */
module SamplerShares {
  import opened Prelude
  import opened Ranking
  import opened SamplerModel
  import opened SamplerProofs

  // ----- shares -----

  /** The highest finite logit. */
  ghost predicate IsPeak(l: seq<Logit>, peak: real) {
    Fin(peak) in l && forall i | 0 <= i < |l| && l[i].Fin? :: l[i].x <= peak
  }

  /** The weight of a logit: w of its distance below the peak, and nothing for minus infinity. */
  function WeightBelow(w: real -> real, a: Logit, peak: real): real {
    if a.Fin? then w(a.x - peak) else 0.0
  }

  function TotalWeight(w: real -> real, l: seq<Logit>, peak: real): real {
    if l == [] then 0.0 else TotalWeight(w, l[..|l| - 1], peak) + WeightBelow(w, l[|l| - 1], peak)
  }

  lemma PeakIs(l: seq<Logit>, peak: real)
    requires IsPeak(l, peak)
    ensures HasFinite(l) && Peak(l) == peak
  {
    var k :| 0 <= k < |l| && l[k] == Fin(peak);
    assert l[k].Fin?;
    FinitePeak(l);
    ArgMaxIsFirst(l, k);
  }

  lemma {:induction false} TotalIsMass(w: real -> real, l: seq<Logit>, peak: real, n: nat)
    requires IsPeak(l, peak) && n <= |l|
    ensures Mass(Weights(w, l)[..n]) == TotalWeight(w, l[..n], peak)
  {
    hide IsPeak;
    PeakIs(l, peak);
    if n > 0 {
      TotalIsMass(w, l, peak, n - 1);
      assert Weights(w, l)[..n][..n - 1] == Weights(w, l)[..n - 1] && l[..n][..n - 1] == l[..n - 1];
    }
  }

  /** Softmax: every share is the token's weight below the peak over the weight of all. */
  lemma SoftmaxShares(w: real -> real, l: seq<Logit>, peak: real, i: nat)
    requires Exponential(w) && IsPeak(l, peak) && i < |l|
    ensures TotalWeight(w, l, peak) > 0.0
    ensures Times(Softmax(w, l)[i], TotalWeight(w, l, peak)) == WeightBelow(w, l[i], peak)
  {
    hide IsPeak, Exponential, Times, Mass, TotalWeight, HasFinite;
    PeakIs(l, peak);
    TotalIsMass(w, l, peak, |l|);
    assert Weights(w, l)[..|l|] == Weights(w, l) && l[..|l|] == l;
    WeightsTotal(w, l);
    TimesOver(Weights(w, l)[i], TotalWeight(w, l, peak));
  }

  lemma TimesOver(a: real, b: real)
    requires b != 0.0
    ensures Times(a / b, b) == a
  {
  }

  // ----- temperature -----

  /** x is l with every finite logit divided by t. */
  predicate Tempers(l: seq<Logit>, x: seq<Logit>, t: real) {
    |x| == |l| && forall i | 0 <= i < |l| :: (x[i].Fin? <==> l[i].Fin?) && (l[i].Fin? ==> Times(x[i].x, t) == l[i].x)
  }

  lemma CooledTempers(l: seq<Logit>, t: real)
    requires t > 0.0
    ensures Tempers(l, Cooled(l, t), t)
  {
    forall i | 0 <= i < |l| && l[i].Fin? ensures Times(Cooled(l, t)[i].x, t) == l[i].x {
      TimesOver(l[i].x, t);
    }
  }

  // ----- the filters -----

  /** The probability mass of the tokens of the set. */
  function MassIn(probs: seq<real>, among: set<nat>): real {
    if probs == [] then 0.0
    else MassIn(probs[..|probs| - 1], among) + if |probs| - 1 in among then probs[|probs| - 1] else 0.0
  }

  /** The tokens that come before i in the sampler's order. */
  function AheadOf(l: seq<Logit>, i: nat): set<nat>
    requires i < |l|
  {
    set j: nat | j < |l| && Ahead(l, j, i)
  }

  lemma {:induction false} MassInAdds(probs: seq<real>, among: set<nat>, i: nat)
    requires i !in among
    ensures MassIn(probs, among + {i}) == MassIn(probs, among) + if i < |probs| then probs[i] else 0.0
  {
    if probs != [] {
      MassInAdds(probs[..|probs| - 1], among, i);
    }
  }

  lemma {:induction false} NoMass(probs: seq<real>)
    ensures MassIn(probs, {}) == 0.0
  {
    if probs != [] {
      NoMass(probs[..|probs| - 1]);
    }
  }

  function Front(order: seq<nat>, k: nat): set<nat>
    requires k <= |order|
  {
    set j | 0 <= j < k :: order[j]
  }

  lemma {:induction false} MassOfIsMassIn(probs: seq<real>, order: seq<nat>, k: nat)
    requires Indices(order, |probs|) && NoDup(order) && k <= |order|
    ensures MassOf(probs, order, k) == MassIn(probs, Front(order, k))
  {
    if k == 0 {
      NoMass(probs);
      assert Front(order, 0) == {};
    } else {
      MassOfIsMassIn(probs, order, k - 1);
      MassInAdds(probs, Front(order, k - 1), order[k - 1]);
      assert Front(order, k) == Front(order, k - 1) + {order[k - 1]};
    }
  }

  lemma {:induction false} MassOfGrows(probs: seq<real>, order: seq<nat>, k: nat, n: nat)
    requires Indices(order, |probs|) && k <= n <= |order| && forall i | 0 <= i < |probs| :: probs[i] >= 0.0
    ensures MassOf(probs, order, k) <= MassOf(probs, order, n)
  {
    if k < n {
      MassOfGrows(probs, order, k, n - 1);
    }
  }

  /** The tokens before place k of the ranking are those ahead of the one that stands there. */
  lemma FrontIsAhead(w: real -> real, l: seq<Logit>, k: nat)
    requires Exponential(w) && HasFinite(l) && k < |l|
    ensures var order := Ranked(Softmax(w, l)); Front(order, k) == AheadOf(l, order[k])
  {
    hide Softmax, HasFinite, Exponential;
    var probs := Softmax(w, l);
    var order := Ranked(probs);
    RankedSorts(probs);
    SoftmaxIs(w, l);
    var i := order[k];
    forall j: nat ensures j in Front(order, k) <==> j in AheadOf(l, i) {
      if j in Front(order, k) {
        var a :| 0 <= a < k && order[a] == j;
        assert Before(probs, order[a], order[k]);
        EqualShares(w, l, j, i);
      }
      if j in AheadOf(l, i) {
        assert j in order;
        var b :| 0 <= b < |order| && order[b] == j;
        assert Before(probs, j, i);
        SortedAt(probs, order, k, b);
      }
    }
  }

  /** Equal shares come from equal logits. */
  lemma EqualShares(w: real -> real, l: seq<Logit>, i: nat, j: nat)
    requires Exponential(w) && HasFinite(l) && i < |l| && j < |l|
    ensures Softmax(w, l)[i] == Softmax(w, l)[j] ==> l[i] == l[j]
  {
    hide Softmax, HasFinite, Exponential;
    SoftmaxIs(w, l);
  }

  /** Top-p keeps exactly the tokens before which less than p of the mass stands. */
  lemma TopPKeeps(w: real -> real, l: seq<Logit>, p: real, i: nat)
    requires Exponential(w) && HasFinite(l) && 0.0 < p < 1.0 && i < |l|
    ensures TopP(w, l, p)[i] == if MassIn(Softmax(w, l), AheadOf(l, i)) < p then l[i] else NegInf
  {
    hide Softmax, HasFinite, Exponential, Nucleus, Ahead, Before, Distribution;
    var probs := Softmax(w, l);
    var order := Ranked(probs);
    RankedSorts(probs);
    SharesNonnegative(w, l);
    assert i in order;
    var k: nat :| k < |order| && order[k] == i;
    FrontIsAhead(w, l, k);
    MassOfIsMassIn(probs, order, k);
    NucleusIsShortest(probs, order, p, 0);
    var n := Nucleus(probs, order, p, 0, 0.0);
    if k < n {
      MassOfGrows(probs, order, k, n - 1);
      assert order[..n][k] == i;
    } else {
      MassOfGrows(probs, order, n, k);
      assert i !in order[..n];
    }
  }

  lemma SharesNonnegative(w: real -> real, l: seq<Logit>)
    requires Exponential(w) && HasFinite(l)
    ensures forall i | 0 <= i < |l| :: Softmax(w, l)[i] >= 0.0
  {
    SoftmaxIs(w, l);
  }

  /** The places of the logits above a. */
  function Beating(l: seq<Logit>, a: Logit): set<nat> {
    set j: nat | j < |l| && Above(l[j], a)
  }

  function Better(l: seq<Logit>, i: nat): set<nat>
    requires i < |l|
  {
    Beating(l, l[i])
  }

  lemma BeatingNext(l: seq<Logit>, b: Logit, a: Logit)
    ensures |Beating(l + [b], a)| == |Beating(l, a)| + if Above(b, a) then 1 else 0
  {
    hide Above;
    assert Beating(l + [b], a) == Beating(l, a) + if Above(b, a) then {|l|} else {};
  }

  lemma {:induction false} CountIs(l: seq<Logit>, a: Logit)
    ensures |Beating(l, a)| == AboveCount(l, a)
  {
    hide Above;
    if l == [] {
      assert Beating(l, a) == {};
    } else {
      var n := |l| - 1;
      assert l == l[..n] + [l[n]];
      CountIs(l[..n], a);
      AboveCountSnoc(l[..n], l[n], a);
      BeatingNext(l[..n], l[n], a);
    }
  }

  /** Top-k: what fewer than k tokens beat. */
  ghost predicate KeepsBest(x: seq<Logit>, a: seq<Logit>, k: int) {
    |a| == |x| && forall i | 0 <= i < |x| ::
      a[i] == if k <= 0 || k >= |x| || |Better(x, i)| < k then x[i] else NegInf
  }

  /** Top-p: what has less than p of the mass before it. */
  ghost predicate KeepsNucleus(w: real -> real, a: seq<Logit>, b: seq<Logit>, p: real) {
    |b| == |a| && forall i | 0 <= i < |a| ::
      b[i] == if p >= 1.0 || MassIn(Softmax(w, a), AheadOf(a, i)) < p then a[i] else NegInf
  }

  /** Min-p: what is at least minP times as likely as any other. */
  ghost predicate KeepsLikely(w: real -> real, b: seq<Logit>, m: seq<Logit>, minP: real) {
    |m| == |b| && forall i | 0 <= i < |b| ::
      m[i] == if minP <= 0.0 || LikelyEnough(Softmax(w, b), i, minP) then b[i] else NegInf
  }

  ghost predicate LikelyEnough(probs: seq<real>, i: nat, minP: real) {
    i < |probs| && forall j | 0 <= j < |probs| :: probs[i] >= Times(minP, probs[j])
  }

  lemma TopKIs(x: seq<Logit>, k: int)
    ensures KeepsBest(x, TopK(x, k), k)
  {
    hide TopK, Above;
    forall i | 0 <= i < |x|
      ensures TopK(x, k)[i] == if k <= 0 || k >= |x| || |Better(x, i)| < k then x[i] else NegInf
    {
      TopKNothing(x, k);
      if 0 < k < |x| {
        TopKKeeps(x, k, i);
        CountIs(x, x[i]);
      }
    }
  }

  lemma TopKNothing(x: seq<Logit>, k: int)
    ensures k <= 0 || k >= |x| ==> TopK(x, k) == x
  {
  }

  lemma TopPIs(w: real -> real, a: seq<Logit>, p: real)
    requires Exponential(w) && HasFinite(a) && p > 0.0
    ensures KeepsNucleus(w, a, TopP(w, a, p), p)
  {
    hide TopP, HasFinite, Exponential, Softmax, AheadOf, MassIn;
    forall i | 0 <= i < |a|
      ensures TopP(w, a, p)[i] == if p >= 1.0 || MassIn(Softmax(w, a), AheadOf(a, i)) < p then a[i] else NegInf
    {
      TopPNothing(w, a, p);
      if p < 1.0 {
        TopPKeeps(w, a, p, i);
      }
    }
  }

  lemma TopPNothing(w: real -> real, a: seq<Logit>, p: real)
    ensures p >= 1.0 ==> TopP(w, a, p) == a
  {
  }

  lemma MinPIs(w: real -> real, b: seq<Logit>, minP: real)
    ensures KeepsLikely(w, b, MinP(w, b, minP), minP)
  {
    hide MinP, Softmax, Times, Largest;
    forall i | 0 <= i < |b|
      ensures MinP(w, b, minP)[i] == if minP <= 0.0 || LikelyEnough(Softmax(w, b), i, minP) then b[i] else NegInf
    {
      if minP <= 0.0 {
        MinPNothing(w, b, minP);
      } else {
        MinPKeeps(w, b, minP, i);
        EnoughForAll(Softmax(w, b), i, minP);
      }
    }
  }

  lemma EnoughForAll(probs: seq<real>, i: nat, minP: real)
    requires i < |probs| && minP > 0.0
    ensures probs[i] >= Times(minP, Largest(probs)) <==> LikelyEnough(probs, i, minP)
  {
    hide Largest;
    var k :| 0 <= k < |probs| && probs[k] == Largest(probs);
    forall j | 0 <= j < |probs| ensures Times(minP, probs[j]) <= Times(minP, Largest(probs)) {
      assert minP * (Largest(probs) - probs[j]) >= 0.0;
    }
  }

  /** The stages of the truncation, in order: temper, top-k, top-p, min-p. */
  ghost predicate Filtered(w: real -> real, l: seq<Logit>, c: Config, x: seq<Logit>, a: seq<Logit>, b: seq<Logit>,
      m: seq<Logit>)
  {
    Tempers(l, x, c.temperature) && KeepsBest(x, a, c.topK) && KeepsNucleus(w, a, b, c.topP)
    && KeepsLikely(w, b, m, c.minP)
  }

  lemma TruncatedIs(w: real -> real, l: seq<Logit>, c: Config) returns (x: seq<Logit>, a: seq<Logit>, b: seq<Logit>)
    requires Exponential(w) && Sane(c) && c.temperature > 0.0 && HasFinite(l)
    ensures Filtered(w, l, c, x, a, b, Truncated(w, l, c))
  {
    hide TopK, TopP, MinP, Cooled, Truncates, HasFinite, Exponential, KeepsBest, KeepsNucleus, KeepsLikely, Tempers;
    x := Cooled(l, c.temperature);
    CooledTempers(l, c.temperature);
    SomeFinite(l);
    CooledFollows(l, c.temperature, ArgMax(l), ArgMax(l));
    AnyFinite(x, ArgMax(l));
    a := TopK(x, c.topK);
    TopKTruncates(x, c.topK);
    Leaves(x, a);
    TopKIs(x, c.topK);
    b := TopP(w, a, c.topP);
    TopPIs(w, a, c.topP);
    MinPIs(w, b, c.minP);
  }

  /** A survivor's logit times the temperature is the logit that came in. */
  lemma SurvivorTempered(w: real -> real, l: seq<Logit>, c: Config, i: nat)
    requires Exponential(w) && Sane(c) && c.temperature > 0.0 && HasFinite(l)
    requires i < |l| && Truncated(w, l, c)[i].Fin?
    ensures l[i].Fin? && Times(Truncated(w, l, c)[i].x, c.temperature) == l[i].x
  {
    hide Truncated, Exponential, HasFinite, Cooled;
    PipelineTruncates(w, l, c);
    CooledTempers(l, c.temperature);
  }

  // ----- the sampler's shares -----

  lemma SurvivorsPeak(w: real -> real, l: seq<Logit>, c: Config, peak: real)
    requires Exponential(w) && Sane(c) && c.temperature > 0.0 && IsPeak(l, peak)
    ensures HasFinite(l) && IsPeak(Truncated(w, l, c), peak / c.temperature)
  {
    hide Truncated, Exponential, Cooled;
    PeakIs(l, peak);
    PipelineTruncates(w, l, c);
    CooledTempers(l, c.temperature);
    var x, m, t := Cooled(l, c.temperature), Truncated(w, l, c), c.temperature;
    var k :| 0 <= k < |l| && l[k] == Fin(peak);
    var i :| 0 <= i < |m| && m[i].Fin?;
    forall j | 0 <= j < |m| && x[j].Fin? ensures x[j].x <= peak / t {
      Quotient(x[j].x, l[j].x, t);
      DividesAtMost(l[j].x, peak, t);
    }
    Quotient(x[k].x, peak, t);
    if x[i].x == x[k].x {
      assert m[i] == Fin(peak / t);
    } else {
      assert Ahead(x, k, i);
    }
  }

  lemma Quotient(q: real, a: real, t: real)
    requires Times(q, t) == a && t != 0.0
    ensures q == a / t
  {
  }

  lemma DividesAtMost(a: real, b: real, t: real)
    requires t > 0.0 && a <= b
    ensures a / t <= b / t
  {
    assert (b - a) / t >= 0.0;
  }

  /** w of how far below the peak a logit lies, in units of the temperature. */
  function HeatedWeight(w: real -> real, a: Logit, peak: real, t: real): real
    requires t > 0.0
  {
    if a.Fin? then w((a.x - peak) / t) else 0.0
  }

  /** The shares go as the heated weights of the logits, among the tokens for which `among` holds. */
  ghost predicate InProportion(w: real -> real, shares: seq<real>, l: seq<Logit>, peak: real, t: real, among: seq<bool>)
    requires t > 0.0
  {
    && |shares| == |l| == |among|
    && (forall i | 0 <= i < |l| :: if among[i] then shares[i] > 0.0 else shares[i] == 0.0)
    && forall i, j | 0 <= i < |l| && 0 <= j < |l| && among[i] && among[j] ::
         Times(shares[i], HeatedWeight(w, l[j], peak, t)) == Times(shares[j], HeatedWeight(w, l[i], peak, t))
  }

  lemma CrossShares(a: real, b: real, x: real, y: real, total: real)
    requires Times(a, total) == x && Times(b, total) == y
    ensures Times(a, y) == Times(b, x)
  {
  }

  lemma HeatedIs(w: real -> real, x: Logit, a: Logit, peak: real, t: real)
    requires t > 0.0 && x.Fin? && a.Fin? && Times(x.x, t) == a.x
    ensures WeightBelow(w, x, peak / t) == HeatedWeight(w, a, peak, t)
  {
    Quotient(x.x, a.x, t);
    assert a.x / t - peak / t == (a.x - peak) / t;
  }

  /** Softmax of logits that are those of l over t, some of them cut, is in proportion. */
  lemma SharesInProportion(w: real -> real, l: seq<Logit>, m: seq<Logit>, peak: real, t: real)
    requires Exponential(w) && t > 0.0 && |m| == |l| && IsPeak(m, peak / t)
    requires forall i | 0 <= i < |l| && m[i].Fin? :: l[i].Fin? && Times(m[i].x, t) == l[i].x
    ensures InProportion(w, Softmax(w, m), l, peak, t, seq(|m|, i requires 0 <= i < |m| => m[i].Fin?))
    ensures Distribution(Softmax(w, m))
  {
    hide Softmax, Exponential, IsPeak, TotalWeight, WeightBelow, HeatedWeight, Distribution, Times;
    PeakIs(m, peak / t);
    SoftmaxIs(w, m);
    var shares, among := Softmax(w, m), seq(|m|, i requires 0 <= i < |m| => m[i].Fin?);
    forall i | 0 <= i < |l| ensures if among[i] then shares[i] > 0.0 else shares[i] == 0.0 {
      ShareSign(w, m, i);
    }
    forall i, j | 0 <= i < |l| && 0 <= j < |l| && among[i] && among[j]
      ensures Times(shares[i], HeatedWeight(w, l[j], peak, t)) == Times(shares[j], HeatedWeight(w, l[i], peak, t))
    {
      SoftmaxShares(w, m, peak / t, i);
      SoftmaxShares(w, m, peak / t, j);
      HeatedIs(w, m[i], l[i], peak, t);
      HeatedIs(w, m[j], l[j], peak, t);
      CrossShares(shares[i], shares[j], WeightBelow(w, m[i], peak / t), WeightBelow(w, m[j], peak / t),
        TotalWeight(w, m, peak / t));
    }
  }

  lemma ShareSign(w: real -> real, m: seq<Logit>, i: nat)
    requires Exponential(w) && HasFinite(m) && i < |m|
    ensures if m[i].Fin? then Softmax(w, m)[i] > 0.0 else Softmax(w, m)[i] == 0.0
  {
    hide HasFinite;
    SoftmaxAt(w, m, i, i);
  }

  /** The draw: token i for a number in i's interval of the cumulative shares. */
  ghost predicate DrawnBy(shares: seq<real>, r: real, id: Option<nat>) {
    forall i: nat :: id == Some(i) <==> i < |shares| && Mass(shares[..i]) <= r < Mass(shares[..i]) + shares[i]
  }

  /** At a positive temperature the sampler draws among the tokens its filters leave, by shares that go as w of
      how far their adjusted logits lie below the highest, in units of the temperature. */
  lemma SampleIsByShares(w: real -> real, l: seq<Logit>, history: seq<int>, c: Config, r: real, peak: real)
    returns (x: seq<Logit>, a: seq<Logit>, b: seq<Logit>, m: seq<Logit>, shares: seq<real>)
    requires Exponential(w) && Sane(c) && c.temperature > 0.0 && 0.0 <= r < 1.0
    requires IsPeak(Adjusted(l, history, c), peak)
    ensures Filtered(w, Adjusted(l, history, c), c, x, a, b, m) && |m| == |l|
    ensures InProportion(w, shares, Adjusted(l, history, c), peak, c.temperature,
                         seq(|m|, i requires 0 <= i < |m| => m[i].Fin?))
    ensures Distribution(shares) && DrawnBy(shares, r, Sample(w, l, history, c, r))
  {
    hide Truncated, Softmax, Exponential, Adjusted, IsPeak, Filtered, InProportion, Distribution, Multinomial;
    var work := Adjusted(l, history, c);
    SurvivorsPeak(w, work, c, peak);
    x, a, b := TruncatedIs(w, work, c);
    m := Truncated(w, work, c);
    shares := Softmax(w, m);
    forall i | 0 <= i < |work| && m[i].Fin? ensures work[i].Fin? && Times(m[i].x, c.temperature) == work[i].x {
      SurvivorTempered(w, work, c, i);
    }
    SharesInProportion(w, work, m, peak, c.temperature);
    NotEmpty(work, peak);
    forall i: nat ensures Multinomial(shares, r) == Some(i)
      <==> i < |shares| && Mass(shares[..i]) <= r < Mass(shares[..i]) + shares[i]
    {
      DrawIs(shares, r, i);
    }
  }

  /** Those shares, under their stages and for the highest adjusted logit, explain the token drawn. */
  ghost predicate Explains(w: real -> real, l: seq<Logit>, history: seq<int>, c: Config, r: real, id: Option<nat>,
      peak: real, shares: seq<real>)
    requires c.repetition > 0.0 && c.temperature > 0.0
  {
    && Distribution(shares) && DrawnBy(shares, r, id)
    && exists x: seq<Logit>, a: seq<Logit>, b: seq<Logit>, m: seq<Logit> ::
         && Filtered(w, Adjusted(l, history, c), c, x, a, b, m) && |m| == |l|
         && InProportion(w, shares, Adjusted(l, history, c), peak, c.temperature,
                         seq(|m|, i requires 0 <= i < |m| => m[i].Fin?))
  }

  ghost predicate DrawnInShares(w: real -> real, l: seq<Logit>, history: seq<int>, c: Config, r: real, id: Option<nat>)
    requires c.repetition > 0.0
  {
    c.temperature > 0.0 ==>
      forall peak: real | IsPeak(Adjusted(l, history, c), peak) ::
        exists shares: seq<real> :: Explains(w, l, history, c, r, id, peak, shares)
  }

  lemma SampleDrawsInShares(w: real -> real, l: seq<Logit>, history: seq<int>, c: Config, r: real)
    requires Exponential(w) && Sane(c) && 0.0 <= r < 1.0
    ensures DrawnInShares(w, l, history, c, r, Sample(w, l, history, c, r))
  {
    hide Exponential, Adjusted, IsPeak, Filtered, InProportion, Distribution, DrawnBy, Sample;
    if c.temperature > 0.0 {
      forall peak: real | IsPeak(Adjusted(l, history, c), peak)
        ensures exists shares :: Explains(w, l, history, c, r, Sample(w, l, history, c, r), peak, shares)
      {
        var x, a, b, m, shares := SampleIsByShares(w, l, history, c, r, peak);
        assert Explains(w, l, history, c, r, Sample(w, l, history, c, r), peak, shares);
      }
    }
  }

  lemma NotEmpty(l: seq<Logit>, peak: real)
    requires IsPeak(l, peak)
    ensures l != []
  {
  }

  /** At temperature zero the sampler takes the first of the highest adjusted logits. */
  lemma GreedyTakesFirst(w: real -> real, l: seq<Logit>, history: seq<int>, c: Config, r: real, j: nat)
    requires c.repetition > 0.0 && c.temperature == 0.0 && j < |l|
    ensures var work, id := Adjusted(l, history, c), Sample(w, l, history, c, r);
      && id.Some? && id.value < |l| && !Above(work[j], work[id.value])
      && (j < id.value ==> Above(work[id.value], work[j]))
  {
    hide Adjusted, Above;
    ArgMaxIsFirst(Adjusted(l, history, c), j);
  }

  // ----- adjusting -----

  /** The places of the history that the penalties look at. */
  predicate Looked(history: seq<int>, w: int, k: int) {
    0 <= k < |history| && (w > 0 ==> k >= |history| - w) && (w < 0 ==> k >= -w)
  }

  /** Where in those places token i stands. */
  function Seen(history: seq<int>, w: int, i: int): set<int> {
    set k | 0 <= k < |history| && Looked(history, w, k) && history[k] == i
  }

  /** What becomes of token i's logit: its bias is added, a suppressed token goes to minus infinity, and a token
      seen n times is penalized: the repetition penalty brings it down on either side of zero, then come n times
      the frequency penalty and once the presence penalty. */
  ghost predicate IsAdjusted(before: Logit, after: Logit, i: int, n: nat, c: Config) {
    if before.NegInf? || i in c.suppressed then after.NegInf?
    else
      var x := before.x + if i in c.bias then c.bias[i] else 0.0;
      && after.Fin?
      && if n == 0 then after.x == x
         else
           var y := after.x + c.presence + c.frequency * n as real;
           if x > 0.0 then Times(y, c.repetition) == x else y == Times(x, c.repetition)
  }

  lemma {:induction false} CountIsSeen(history: seq<int>, from: nat, i: int)
    requires from <= |history|
    ensures Count(history[from..], i) == |set k | from <= k < |history| && history[k] == i|
    decreases |history|
  {
    var seen := set k | from <= k < |history| && history[k] == i;
    if from == |history| {
      assert seen == {};
    } else {
      var n := |history| - 1;
      CountIsSeen(history[..n], from, i);
      assert history[from..][..n - from] == history[..n][from..];
      var front := set k | from <= k < |history[..n]| && history[..n][k] == i;
      assert seen == front + if history[n] == i then {n} else {};
    }
  }

  lemma WindowCounts(history: seq<int>, w: int, i: int)
    ensures Count(Window(history, w), i) == |Seen(history, w, i)|
  {
    var from := if w == 0 then 0 else if w > 0 then Max(0, |history| - w) else Min(|history|, -w);
    CountIsSeen(history, from, i);
    assert history[0..] == history;
    assert Seen(history, w, i) == set k | from <= k < |history| && history[k] == i;
  }

  lemma PenalizedIs(a: Logit, n: nat, c: Config)
    requires c.repetition > 0.0 && a.Fin? && n > 0
    ensures var y := Penalized(a, n, c).x + c.presence + c.frequency * n as real;
      Penalized(a, n, c).Fin? && if a.x > 0.0 then Times(y, c.repetition) == a.x else y == Times(a.x, c.repetition)
  {
    TimesOver(a.x, c.repetition);
    assert c.frequency == 0.0 ==> c.frequency * n as real == 0.0;
  }

  /** Every adjusted logit is what its bias, its suppression and its places in the window make of it. */
  lemma AdjustedAre(l: seq<Logit>, history: seq<int>, c: Config, i: nat)
    requires c.repetition > 0.0 && i < |l|
    ensures IsAdjusted(l[i], Adjusted(l, history, c)[i], i, |Seen(history, c.window, i)|, c)
  {
    hide Window, Count, Seen, Penalized;
    WindowCounts(history, c.window, i);
    var n := |Seen(history, c.window, i)|;
    var a := Suppressed(Biased(l, c.bias), c.suppressed)[i];
    if a.Fin? && n > 0 {
      PenalizedIs(a, n, c);
      Neutral(a.x, n);
    }
  }

  lemma Neutral(x: real, n: nat)
    ensures Times(x, 1.0) == x && 0.0 * n as real == 0.0
  {
  }
}
