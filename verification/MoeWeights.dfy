/** What a routing decision gives each token of the batch: its experts in order of preference, weighed by their
    own probabilities, under the capacity that the batch size sets. */
module MoeWeights {
  import opened Prelude
  import opened Ranking
  import opened SamplerModel
  import opened SamplerShares
  import opened MoeModel
  import opened MoeProofs

  // ----- weights -----

  /** The weights of the experts chosen for a row. Normalized, they sum to one and go as w of the experts' own
      logits; otherwise each is its expert's probability: that weight over the weight of all. */
  ghost predicate WeighedBy(w: real -> real, row: seq<real>, chosen: seq<nat>, weights: seq<real>, peak: real,
      normalize: bool)
  {
    && Indices(chosen, |row|) && |weights| == |chosen|
    && (normalize && chosen != [] ==> Mass(weights) == 1.0)
    && (forall i | 0 <= i < |chosen| :: weights[i] > 0.0)
    && (normalize ==> forall i, j | 0 <= i < |chosen| && 0 <= j < |chosen| ::
          Times(weights[i], w(row[chosen[j]] - peak)) == Times(weights[j], w(row[chosen[i]] - peak)))
    && (!normalize ==> forall i | 0 <= i < |chosen| ::
          Times(weights[i], TotalWeight(w, Logits(row), peak)) == w(row[chosen[i]] - peak))
  }

  lemma ProbIs(w: real -> real, row: seq<real>, peak: real, e: nat)
    requires Exponential(w) && IsPeak(Logits(row), peak) && e < |row|
    ensures Times(Probs(w, row)[e], TotalWeight(w, Logits(row), peak)) == w(row[e] - peak)
    ensures Probs(w, row)[e] > 0.0
  {
    hide Softmax, IsPeak, Exponential;
    SoftmaxShares(w, Logits(row), peak, e);
    ProbPositive(w, row, e);
  }

  lemma ScaledCross(a: real, b: real, x: real, y: real, total: real)
    requires total != 0.0 && Times(a, y) == Times(b, x)
    ensures Times(a / total, y) == Times(b / total, x)
  {
    assert a / total * y == a * y / total;
    assert b / total * x == b * x / total;
  }

  lemma WeightsAreTheirOwn(w: real -> real, row: seq<real>, chosen: seq<nat>, peak: real, normalize: bool)
    requires Exponential(w) && IsPeak(Logits(row), peak) && Indices(chosen, |row|)
    ensures WeighedBy(w, row, chosen, WeightsOf(Probs(w, row), chosen, normalize), peak, normalize)
  {
    hide Probs, IsPeak, Exponential, Logits, Times, TotalWeight;
    var probs := Probs(w, row);
    var total := TotalWeight(w, Logits(row), peak);
    var weights := WeightsOf(probs, chosen, normalize);
    var raw := seq(|chosen|, i requires 0 <= i < |chosen| => probs[chosen[i]]);
    forall i | 0 <= i < |chosen|
      ensures Times(raw[i], total) == w(row[chosen[i]] - peak) && raw[i] > 0.0
    {
      ProbIs(w, row, peak, chosen[i]);
    }
    if normalize && chosen != [] {
      WeightsSumToOne(w, row, chosen);
      PositiveMass(raw);
      forall i, j | 0 <= i < |chosen| && 0 <= j < |chosen|
        ensures Times(weights[i], w(row[chosen[j]] - peak)) == Times(weights[j], w(row[chosen[i]] - peak))
      {
        CrossShares(raw[i], raw[j], w(row[chosen[i]] - peak), w(row[chosen[j]] - peak), total);
        ScaledCross(raw[i], raw[j], w(row[chosen[i]] - peak), w(row[chosen[j]] - peak), Mass(raw));
      }
    }
  }

  // ----- the whole batch -----

  /** The decision for a token depends on the rows up to its own. */
  lemma {:induction false} RouteAt(w: real -> real, c: MoeConfig, rows: seq<seq<real>>, cap: int, n: nat, t: nat)
    requires t < n <= |rows| && Square(c, rows, n)
    ensures var d, before := RouteUpTo(w, c, rows, cap, n), RouteUpTo(w, c, rows, cap, t);
      var chosen := Chosen(w, c, rows[t], before.load, cap);
      && d.expertIds[t] == chosen && d.expertIds[..t] == before.expertIds
      && d.weights[t] == WeightsOf(Probs(w, rows[t]), chosen, c.normalize)
  {
    hide Chosen, WeightsOf, Counted, Probs;
    if t < n - 1 {
      RouteAt(w, c, rows, cap, n - 1, t);
    }
  }

  /** Every token's weights are those of its own experts. */
  lemma RoutedWeights(w: real -> real, c: MoeConfig, rows: seq<seq<real>>, t: nat, peak: real)
    requires Exponential(w) && Legal(c) && Route(w, c, rows).Routed? && t < |rows| && IsPeak(Logits(rows[t]), peak)
    ensures var d := Route(w, c, rows).decision;
      && |d.expertIds| == |d.weights| == |rows|
      && WeighedBy(w, rows[t], d.expertIds[t], d.weights[t], peak, c.normalize)
  {
    hide Exponential, IsPeak, Logits, WeighedBy, WeightsOf, Chosen, RouteUpTo, Probs;
    MisfitIs(c, rows, 0);
    var cap := Capacity(c, |rows|);
    RouteAt(w, c, rows, cap, |rows|, t);
    WeightsAreTheirOwn(w, rows[t], Chosen(w, c, rows[t], RouteUpTo(w, c, rows, cap, t).load, cap), peak, c.normalize);
  }

  /** Every token of the batch is weighed by its own experts, for a weight function that is an exponential. */
  ghost predicate OwnWeights(w: real -> real, c: MoeConfig, rows: seq<seq<real>>, d: Decision) {
    Exponential(w) ==>
      && |d.expertIds| == |d.weights| == |rows|
      && forall t: nat, peak: real | t < |rows| && IsPeak(Logits(rows[t]), peak) ::
           WeighedBy(w, rows[t], d.expertIds[t], d.weights[t], peak, c.normalize)
  }

  lemma RoutedSizes(w: real -> real, c: MoeConfig, rows: seq<seq<real>>)
    requires Legal(c) && Route(w, c, rows).Routed?
    ensures var d := Route(w, c, rows).decision; |d.expertIds| == |d.weights| == |rows|
  {
    hide RouteUpTo;
    MisfitIs(c, rows, 0);
  }

  lemma RoutedOwnWeights(w: real -> real, c: MoeConfig, rows: seq<seq<real>>)
    requires Legal(c)
    ensures Route(w, c, rows).Routed? ==> OwnWeights(w, c, rows, Route(w, c, rows).decision)
  {
    hide Route, Exponential, IsPeak, WeighedBy, Logits;
    if Exponential(w) && Route(w, c, rows).Routed? {
      RoutedSizes(w, c, rows);
      var d := Route(w, c, rows).decision;
      forall t: nat, peak: real | t < |rows| && IsPeak(Logits(rows[t]), peak)
        ensures WeighedBy(w, rows[t], d.expertIds[t], d.weights[t], peak, c.normalize)
      {
        RoutedWeights(w, c, rows, t, peak);
      }
    }
  }

  /** The least whole number, at least one, of tokens per expert that covers the batch by the factor. */
  lemma CapacityIsLeast(c: MoeConfig, tokens: nat)
    requires c.experts > 0
    ensures var cap, wanted := Capacity(c, tokens), Times((tokens * c.perToken) as real, c.factor);
      if c.policy.Never? then cap == tokens
      else
        && cap >= 1 && Times(cap as real, c.experts as real) >= wanted
        && (cap > 1 ==> Times((cap - 1) as real, c.experts as real) < wanted)
  {
    if !c.policy.Never? {
      var share, e := (tokens * c.perToken) as real / c.experts as real * c.factor, c.experts as real;
      ShareIs((tokens * c.perToken) as real, e, c.factor);
      Ceil(share);
      Scales(share, Capacity(c, tokens) as real, e);
      Scales(share, (Capacity(c, tokens) - 1) as real, e);
    }
  }

  lemma ShareIs(a: real, e: real, f: real)
    requires e > 0.0
    ensures Times(a / e * f, e) == Times(a, f)
  {
  }

  lemma Ceil(x: real)
    ensures Ceiling(x) as real >= x > (Ceiling(x) - 1) as real
  {
  }

  lemma Scales(x: real, y: real, e: real)
    requires e > 0.0
    ensures y >= x <==> Times(y, e) >= Times(x, e)
  {
    if y >= x {
      assert (y - x) * e >= 0.0;
    } else {
      assert (x - y) * e > 0.0;
    }
  }

  lemma {:induction false} ChooseInOrder(ranked: seq<nat>, counts: seq<nat>, cap: int, want: nat) returns (at: seq<nat>)
    requires Indices(ranked, |counts|)
    ensures var chosen := Choose(ranked, counts, cap, want);
      && |at| == |chosen| && (forall i | 0 <= i < |at| :: at[i] < |ranked| && ranked[at[i]] == chosen[i])
      && forall i, j :: 0 <= i < j < |at| ==> at[i] < at[j]
  {
    at := [];
    if want > 0 && ranked != [] {
      var full := counts[ranked[0]] >= cap;
      var rest := ChooseInOrder(ranked[1..], counts, cap, if full then want else want - 1);
      var later := seq(|rest|, i requires 0 <= i < |rest| => rest[i] + 1);
      at := if full then later else [0] + later;
    }
  }

  /** A token's experts stand in the order in which it prefers them. */
  lemma ChosenInOrder(w: real -> real, c: MoeConfig, row: seq<real>, counts: seq<nat>, cap: int)
    requires Exponential(w) && |row| == |counts| > 0
    ensures var chosen := Chosen(w, c, row, counts, cap);
      forall i, j :: 0 <= i < j < |chosen| ==> Beats(row, chosen[i], chosen[j])
  {
    hide Choose, Probs, Exponential;
    var probs := Probs(w, row);
    var ranked := Ranked(probs);
    RankedSorts(probs);
    var chosen := Chosen(w, c, row, counts, cap);
    var at := ChooseInOrder(ranked, counts, cap, c.perToken);
    forall i, j | 0 <= i < j < |chosen| ensures Beats(row, chosen[i], chosen[j]) {
      assert Before(probs, ranked[at[i]], ranked[at[j]]);
      ProbsFollow(w, row, chosen[i], chosen[j]);
      ProbsFollow(w, row, chosen[j], chosen[i]);
    }
  }

  /** What a token of the batch gets: in order of preference, distinct experts to which fewer than the capacity of
      the earlier tokens went, as many as asked for unless every other expert is full, and never passing over
      a better one with room. */
  ghost predicate WellServed(c: MoeConfig, row: seq<real>, earlier: seq<seq<nat>>, chosen: seq<nat>, cap: int) {
    && NoDup(chosen) && |chosen| <= c.perToken && Indices(chosen, |row|)
    && (forall i, j :: 0 <= i < j < |chosen| ==> Beats(row, chosen[i], chosen[j]))
    && (forall i :: 0 <= i < |chosen| ==> Assigned(earlier, chosen[i]) < cap)
    && (|chosen| < c.perToken ==> forall e: nat :: e < |row| && Assigned(earlier, e) < cap ==> e in chosen)
    && (forall e: nat, f: nat :: f in chosen && Beats(row, e, f) && Assigned(earlier, e) < cap ==> e in chosen)
  }

  /** Every token of the batch is served so, in the order of the batch. */
  lemma RoutedWell(w: real -> real, c: MoeConfig, rows: seq<seq<real>>, t: nat)
    requires Exponential(w) && Legal(c) && Route(w, c, rows).Routed? && t < |rows|
    ensures var d := Route(w, c, rows).decision;
      && |d.expertIds| == |rows|
      && WellServed(c, rows[t], d.expertIds[..t], d.expertIds[t], Capacity(c, |rows|))
  {
    hide Exponential, Chosen, RouteUpTo, Probs, Assigned, Capacity, Beats;
    MisfitIs(c, rows, 0);
    var cap := Capacity(c, |rows|);
    var before := RouteUpTo(w, c, rows, cap, t);
    RouteAt(w, c, rows, cap, |rows|, t);
    CapacityNonnegative(c, |rows|);
    LoadsKeep(w, c, rows, cap, t);
    TokenIsWellServed(w, c, rows[t], before, cap, t);
  }

  lemma TokenIsWellServed(w: real -> real, c: MoeConfig, row: seq<real>, d: Decision, cap: int, n: nat)
    requires Exponential(w) && |row| == c.experts > 0 && LoadsOk(c, d, cap, n)
    ensures WellServed(c, row, d.expertIds, Chosen(w, c, row, d.load, cap), cap)
  {
    hide Exponential, Chosen, Assigned, Assignments, Sum, Product;
    TokenGetsBest(w, c, row, d.load, cap);
    ChosenInOrder(w, c, row, d.load, cap);
    assert forall e: nat | e < |row| :: d.load[e] == Assigned(d.expertIds, e);
  }

  lemma CapacityNonnegative(c: MoeConfig, tokens: nat)
    requires c.experts > 0
    ensures Capacity(c, tokens) >= 0
  {
  }
}
