/** What survives truncation, and which draw returns which token. */
module SamplerProofs {
  import opened Prelude
  import opened Ranking
  import opened SamplerModel

  // ----- the best logit -----

  lemma {:induction false} ArgMaxIsFirst(l: seq<Logit>, j: nat)
    requires j < |l|
    ensures !Above(l[j], l[ArgMax(l)])
    ensures j < ArgMax(l) ==> Above(l[ArgMax(l)], l[j])
  {
    if |l| > 1 {
      var front := l[..|l| - 1];
      ArgMaxIsFirst(front, ArgMax(front));
      if j < |l| - 1 {
        ArgMaxIsFirst(front, j);
      }
    }
  }

  lemma FinitePeak(l: seq<Logit>)
    requires HasFinite(l)
    ensures |l| > 0 && l[ArgMax(l)] == Fin(Peak(l))
  {
    var i :| 0 <= i < |l| && l[i].Fin?;
    ArgMaxIsFirst(l, i);
  }

  // ----- penalties -----

  /** Penalties never reward: on either side of zero a penalized logit is no higher. */
  lemma PenaltiesLower(a: Logit, count: nat, c: Config)
    requires c.repetition >= 1.0 && c.frequency >= 0.0 && c.presence >= 0.0 && a.Fin?
    ensures Penalized(a, count, c).Fin? && Penalized(a, count, c).x <= a.x
  {
    Shrinking(a.x, c.repetition);
    assert c.frequency * count as real >= 0.0;
  }

  /** So a token seen in the window never overtakes one that was not. */
  lemma PenaltiesNeverPromote(l: seq<Logit>, history: seq<int>, c: Config, i: nat, j: nat)
    requires c.repetition >= 1.0 && c.frequency >= 0.0 && c.presence >= 0.0 && i < |l| && j < |l|
    requires Count(Window(history, c.window), i) > 0 && Count(Window(history, c.window), j) == 0
    ensures Above(l[j], l[i]) ==> Above(PenalizedAll(l, history, c)[j], PenalizedAll(l, history, c)[i])
  {
    hide Window, Count, Penalized;
    if l[i].Fin? {
      PenaltiesLower(l[i], Count(Window(history, c.window), i), c);
    }
  }

  lemma Shrinking(x: real, f: real)
    requires f >= 1.0
    ensures x > 0.0 ==> x / f <= x
    ensures x <= 0.0 ==> x * f <= x
  {
    assert x <= 0.0 ==> x * (f - 1.0) <= 0.0;
    if x > 0.0 {
      assert (x / f) * f == x;
      assert (x / f) * (f - 1.0) >= 0.0;
    }
  }

  // ----- truncation -----

  /** j comes before i in the sampler's order: higher logit, ties by lower index. */
  predicate Ahead(l: seq<Logit>, j: nat, i: nat)
    requires j < |l| && i < |l|
  {
    Above(l[j], l[i]) || (l[j] == l[i] && j < i)
  }

  /** m is l with some logits cut to minus infinity: whatever comes before a survivor survives,
      and somebody does. */
  ghost predicate Truncates(l: seq<Logit>, m: seq<Logit>) {
    && |m| == |l|
    && (forall i :: 0 <= i < |l| ==> m[i] == l[i] || m[i] == NegInf)
    && (forall i, j :: 0 <= i < |l| && 0 <= j < |l| && m[i].Fin? && Ahead(l, j, i) ==> m[j] == l[j])
    && (HasFinite(l) ==> HasFinite(m))
  }

  lemma TruncatesMore(l: seq<Logit>, m: seq<Logit>, n: seq<Logit>)
    requires Truncates(l, m) && Truncates(m, n)
    ensures Truncates(l, n)
  {
    hide HasFinite;
    forall i, j | 0 <= i < |l| && 0 <= j < |l| && n[i].Fin? && Ahead(l, j, i) ensures n[j] == l[j] {
      assert m[i].Fin?;
      assert m[j] == l[j];
      assert Ahead(m, j, i);
    }
  }

  // ----- top-k -----

  /** How many elements of s are above a. */
  function AboveCount(s: seq<Logit>, a: Logit): nat {
    if s == [] then 0 else (if Above(s[0], a) then 1 else 0) + AboveCount(s[1..], a)
  }

  lemma {:induction false} AboveCountSnoc(s: seq<Logit>, b: Logit, a: Logit)
    ensures AboveCount(s + [b], a) == AboveCount(s, a) + if Above(b, a) then 1 else 0
  {
    if s == [] {
      assert [] + [b] == [b];
    } else {
      assert (s + [b])[1..] == s[1..] + [b];
      AboveCountSnoc(s[1..], b, a);
    }
  }

  ghost predicate Falling(s: seq<Logit>) {
    forall i, j :: 0 <= i < j < |s| ==> !Above(s[j], s[i])
  }

  lemma {:induction false} InsertFalls(s: seq<Logit>, b: Logit, a: Logit)
    requires Falling(s)
    ensures var r := InsertLogit(s, b);
      && Falling(r) && (forall x :: x in r <==> x in s || x == b)
      && AboveCount(r, a) == AboveCount(s, a) + if Above(b, a) then 1 else 0
  {
    if s == [] || Above(b, s[0]) {
      assert ([b] + s)[1..] == s;
    } else {
      InsertFalls(s[1..], b, a);
      var rest := InsertLogit(s[1..], b);
      assert ([s[0]] + rest)[1..] == rest;
      assert s == [s[0]] + s[1..];
      forall j | 0 <= j < |rest| ensures !Above(rest[j], s[0]) {
        assert rest[j] in rest;
      }
    }
  }

  lemma {:induction false} DescendingFalls(l: seq<Logit>, a: Logit)
    ensures var r := Descending(l);
      Falling(r) && (forall x :: x in r <==> x in l) && AboveCount(r, a) == AboveCount(l, a)
  {
    if l != [] {
      var front, b := l[..|l| - 1], l[|l| - 1];
      DescendingFalls(front, a);
      InsertFalls(Descending(front), b, a);
      AboveCountSnoc(front, b, a);
      assert l == front + [b];
    }
  }

  /** In a falling sequence the elements above a come first. */
  lemma {:induction false} FallingCount(s: seq<Logit>, a: Logit, k: nat)
    requires Falling(s) && k < |s|
    ensures Above(s[k], a) <==> AboveCount(s, a) > k
  {
    if k == 0 {
      if !Above(s[0], a) {
        NoneAbove(s, a);
      }
    } else {
      FallingCount(s[1..], a, k - 1);
      if !Above(s[0], a) {
        NoneAbove(s, a);
      }
    }
  }

  lemma {:induction false} NoneAbove(s: seq<Logit>, a: Logit)
    requires Falling(s) && |s| > 0 && !Above(s[0], a)
    ensures AboveCount(s, a) == 0
    ensures forall k :: 0 <= k < |s| ==> !Above(s[k], a)
  {
    if |s| > 1 {
      assert !Above(s[1], s[0]);
      NoneAbove(s[1..], a);
    }
  }

  lemma DescendingCount(l: seq<Logit>, a: Logit, k: nat)
    requires k < |l|
    ensures Above(Descending(l)[k], a) <==> AboveCount(l, a) > k
  {
    hide AboveCount, Above, Falling, Descending;
    DescendingFalls(l, a);
    FallingCount(Descending(l), a, k);
  }

  /** Top-k keeps exactly the tokens that fewer than k tokens beat, ties included. */
  lemma TopKKeeps(l: seq<Logit>, k: int, i: nat)
    requires 0 < k < |l| && i < |l|
    ensures TopK(l, k)[i] == if AboveCount(l, l[i]) < k then l[i] else NegInf
  {
    hide Above;
    DescendingCount(l, l[i], k - 1);
  }

  lemma TopKTruncates(l: seq<Logit>, k: int)
    ensures Truncates(l, TopK(l, k))
  {
    if 0 < k < |l| {
      var m, threshold := TopK(l, k), Descending(l)[k - 1];
      if HasFinite(l) {
        FinitePeak(l);
        DescendingFalls(l, threshold);
        assert threshold in l;
        var t :| 0 <= t < |l| && l[t] == threshold;
        ArgMaxIsFirst(l, t);
        assert m[ArgMax(l)].Fin?;
      }
    }
  }

  // ----- softmax -----

  lemma {:induction false} MassNonnegative(s: seq<real>)
    requires forall i :: 0 <= i < |s| ==> s[i] >= 0.0
    ensures Mass(s) >= 0.0
    ensures (exists i :: 0 <= i < |s| && s[i] > 0.0) ==> Mass(s) > 0.0
  {
    if s != [] {
      MassNonnegative(s[..|s| - 1]);
      if s[|s| - 1] == 0.0 && exists i :: 0 <= i < |s| && s[i] > 0.0 {
        var i :| 0 <= i < |s| && s[i] > 0.0;
        assert s[..|s| - 1][i] > 0.0;
      }
    }
  }

  lemma {:induction false} MassScales(s: seq<real>, total: real)
    requires total != 0.0
    ensures Mass(Scaled(s, total)) == Mass(s) / total
  {
    if s != [] {
      MassScales(s[..|s| - 1], total);
      assert Scaled(s, total)[..|s| - 1] == Scaled(s[..|s| - 1], total);
      DividesSum(Mass(s[..|s| - 1]), s[|s| - 1], total);
    } else {
      DividesSum(0.0, 0.0, total);
    }
  }

  lemma DividesSum(a: real, b: real, t: real)
    requires t != 0.0
    ensures (a + b) / t == a / t + b / t
    ensures 0.0 / t == 0.0
  {
  }

  /** A distribution: nothing negative, total one. */
  ghost predicate Distribution(probs: seq<real>) {
    (forall i :: 0 <= i < |probs| ==> probs[i] >= 0.0) && Mass(probs) == 1.0
  }

  lemma WeightsTotal(w: real -> real, l: seq<Logit>)
    requires Exponential(w) && HasFinite(l)
    ensures Mass(Weights(w, l)) > 0.0
  {
    var s := Weights(w, l);
    var k :| 0 <= k < |l| && l[k].Fin?;
    assert s[k] > 0.0;
    MassNonnegative(s);
  }

  lemma SoftmaxAt(w: real -> real, l: seq<Logit>, i: nat, j: nat)
    requires Exponential(w) && HasFinite(l) && i < |l| && j < |l|
    ensures Softmax(w, l)[i] >= 0.0 && (Softmax(w, l)[i] > 0.0 <==> l[i].Fin?)
    ensures Softmax(w, l)[j] > Softmax(w, l)[i] <==> Above(l[j], l[i])
  {
    hide Exponential, HasFinite, Above, Mass;
    WeightsTotal(w, l);
    var s, total := Weights(w, l), Mass(Weights(w, l));
    Divides(s[i], 0.0, total);
    Divides(0.0, s[i], total);
    Divides(s[j], s[i], total);
    WeightsFollow(w, l, i, j);
  }

  /** Softmax is a distribution that orders tokens as their logits do; only a token cut to
      minus infinity has no mass. */
  lemma SoftmaxIs(w: real -> real, l: seq<Logit>)
    requires Exponential(w) && HasFinite(l)
    ensures Distribution(Softmax(w, l))
    ensures forall i :: 0 <= i < |l| ==> (Softmax(w, l)[i] > 0.0 <==> l[i].Fin?)
    ensures forall i, j :: 0 <= i < |l| && 0 <= j < |l| ==> (Softmax(w, l)[j] > Softmax(w, l)[i] <==> Above(l[j], l[i]))
  {
    hide Exponential, HasFinite, Above, Mass;
    WeightsTotal(w, l);
    MassScales(Weights(w, l), Mass(Weights(w, l)));
    Itself(Mass(Weights(w, l)));
    forall i, j | 0 <= i < |l| && 0 <= j < |l|
      ensures Softmax(w, l)[i] >= 0.0 && (Softmax(w, l)[i] > 0.0 <==> l[i].Fin?)
      ensures Softmax(w, l)[j] > Softmax(w, l)[i] <==> Above(l[j], l[i])
    {
      SoftmaxAt(w, l, i, j);
    }
  }

  lemma Itself(t: real)
    requires t != 0.0
    ensures t / t == 1.0
  {
  }

  lemma Divides(a: real, b: real, t: real)
    requires t > 0.0
    ensures a / t > b / t <==> a > b
    ensures 0.0 / t == 0.0
  {
    if a > b {
      assert (a - b) / t > 0.0;
    } else {
      assert (b - a) / t >= 0.0;
    }
  }

  lemma WeightsFollow(w: real -> real, l: seq<Logit>, i: nat, j: nat)
    requires Exponential(w) && i < |l| && j < |l|
    ensures Weights(w, l)[j] > Weights(w, l)[i] <==> Above(l[j], l[i])
    ensures Weights(w, l)[i] >= 0.0 && (Weights(w, l)[i] > 0.0 <==> l[i].Fin?)
  {
    if l[i].Fin? && l[j].Fin? {
      var x, y := l[i].x - Peak(l), l[j].x - Peak(l);
      assert x < y ==> w(x) < w(y);
      assert y < x ==> w(y) < w(x);
    }
  }

  // ----- top-p -----

  lemma {:induction false} NucleusTakes(probs: seq<real>, order: seq<nat>, p: real, n: nat, mass: real)
    requires Indices(order, |probs|) && n < |order|
    ensures Nucleus(probs, order, p, n, mass) > n
    decreases |order| - n
  {
  }

  lemma TopPTruncates(w: real -> real, l: seq<Logit>, p: real)
    requires Exponential(w) && HasFinite(l)
    ensures Truncates(l, TopP(w, l, p))
  {
    hide Softmax, HasFinite, Nucleus, Exponential;
    if p < 1.0 {
      var probs := Softmax(w, l);
      var order := Ranked(probs);
      var n := Nucleus(probs, order, p, 0, 0.0);
      var m := TopP(w, l, p);
      SoftmaxIs(w, l);
      RankedSorts(probs);
      forall i, j | 0 <= i < |l| && 0 <= j < |l| && m[i].Fin? && Ahead(l, j, i) ensures m[j] == l[j] {
        assert Before(probs, j, i);
        PrefixClosed(probs, order, n, i, j);
      }
      SomeFinite(l);
      NucleusTakes(probs, order, p, 0, 0.0);
      FirstRanked(probs, order, ArgMax(l));
      assert order[0] in order[..n];
      AnyFinite(m, order[0]);
    }
  }

  lemma SomeFinite(l: seq<Logit>)
    requires HasFinite(l)
    ensures |l| > 0 && l[ArgMax(l)].Fin?
  {
    FinitePeak(l);
  }

  lemma AnyFinite(l: seq<Logit>, i: nat)
    requires i < |l| && l[i].Fin?
    ensures HasFinite(l)
  {
  }

  /** The first in the order has as much mass as any. */
  lemma FirstRanked(probs: seq<real>, order: seq<nat>, i: nat)
    requires order == Ranked(probs) && i < |probs|
    ensures probs[order[0]] >= probs[i]
  {
    RankedSorts(probs);
    assert i in order;
    var k :| 0 <= k < |order| && order[k] == i;
    if k > 0 {
      assert Before(probs, order[0], order[k]);
    }
  }

  lemma SortedAt(keys: seq<real>, order: seq<nat>, a: nat, b: nat)
    requires Indices(order, |keys|) && Sorted(keys, order) && a < |order| && b < |order|
    ensures a < b ==> !Before(keys, order[b], order[a])
  {
    assert a < b ==> Before(keys, order[a], order[b]);
  }

  lemma PrefixClosed(probs: seq<real>, order: seq<nat>, n: nat, i: nat, j: nat)
    requires Indices(order, |probs|) && Sorted(probs, order) && n <= |order|
    requires i < |probs| && j < |probs| && j in order
    requires i in order[..n] && Before(probs, j, i)
    ensures j in order[..n]
  {
    var a :| 0 <= a < n && order[a] == i;
    var b :| 0 <= b < |order| && order[b] == j;
    SortedAt(probs, order, a, b);
  }

  /** The mass of the first n tokens of the order. */
  function MassOf(probs: seq<real>, order: seq<nat>, n: nat): real
    requires Indices(order, |probs|) && n <= |order|
  {
    if n == 0 then 0.0 else MassOf(probs, order, n - 1) + probs[order[n - 1]]
  }

  /** The nucleus is the shortest run of best tokens, at least one, whose mass reaches p. */
  lemma {:induction false} NucleusIsShortest(probs: seq<real>, order: seq<nat>, p: real, n: nat)
    requires Indices(order, |probs|) && n < |order| && (n > 0 ==> MassOf(probs, order, n) < p)
    ensures var k := Nucleus(probs, order, p, n, MassOf(probs, order, n));
      && n < k && (k > 1 ==> MassOf(probs, order, k - 1) < p)
      && (k < |order| ==> MassOf(probs, order, k) >= p)
    decreases |order| - n
  {
    if MassOf(probs, order, n + 1) < p && n + 1 < |order| {
      NucleusIsShortest(probs, order, p, n + 1);
    }
  }

  // ----- min-p -----

  /** Min-p keeps exactly the tokens at least minP times as likely as the likeliest. */
  lemma MinPKeeps(w: real -> real, l: seq<Logit>, minP: real, i: nat)
    requires minP > 0.0 && i < |l|
    ensures MinP(w, l, minP)[i] == if Softmax(w, l)[i] < Times(minP, Largest(Softmax(w, l))) then NegInf else l[i]
  {
    hide Softmax, Times;
  }

  /** The likeliest is kept. */
  lemma LikeliestKept(probs: seq<real>, minP: real, i: nat) returns (t: nat)
    requires minP < 1.0 && i < |probs| && probs[i] > 0.0
    ensures t < |probs| && probs[t] > 0.0 && probs[t] >= Times(minP, Largest(probs))
  {
    hide Times;
    t :| 0 <= t < |probs| && probs[t] == Largest(probs);
    assert Largest(probs) >= probs[i];
    Shrinks(minP, Largest(probs));
  }

  lemma MinPTruncates(w: real -> real, l: seq<Logit>, minP: real)
    requires Exponential(w) && HasFinite(l) && minP < 1.0
    ensures Truncates(l, MinP(w, l, minP))
  {
    hide Softmax, HasFinite, Exponential, Times, MinP, Largest;
    if minP > 0.0 {
      SomeFinite(l);
      SoftmaxIs(w, l);
      var probs, m := Softmax(w, l), MinP(w, l, minP);
      forall i | 0 <= i < |l| ensures m[i] == if probs[i] < Times(minP, Largest(probs)) then NegInf else l[i] {
        MinPKeeps(w, l, minP, i);
      }
      var t := LikeliestKept(probs, minP, ArgMax(l));
      AnyFinite(m, t);
    } else {
      MinPNothing(w, l, minP);
    }
  }

  lemma MinPNothing(w: real -> real, l: seq<Logit>, minP: real)
    requires minP <= 0.0
    ensures MinP(w, l, minP) == l
  {
  }

  lemma Shrinks(f: real, x: real)
    requires f < 1.0 && x > 0.0
    ensures Times(f, x) < x
  {
    assert (1.0 - f) * x > 0.0;
  }

  // ----- the pipeline -----

  /** Cooling keeps the order. */
  lemma CooledFollows(l: seq<Logit>, temperature: real, i: nat, j: nat)
    requires temperature >= 0.0 && i < |l| && j < |l|
    ensures var m := Cooled(l, temperature);
      && (m[i].Fin? <==> l[i].Fin?)
      && (Above(m[j], m[i]) <==> Above(l[j], l[i]))
  {
    if temperature > 0.0 && l[i].Fin? && l[j].Fin? {
      Divides(l[j].x, l[i].x, temperature);
    }
  }

  lemma AdjustedIs(l: seq<Logit>, history: seq<int>, c: Config, i: nat)
    requires c.repetition > 0.0 && i < |l|
    ensures Adjusted(l, history, c)[i].Fin? <==> l[i].Fin? && i !in c.suppressed
  {
  }

  /** Whatever some unsuppressed finite logit leaves, truncation leaves some of it, in full from
      the top of the sampler's order. */
  lemma PipelineTruncates(w: real -> real, l: seq<Logit>, c: Config)
    requires Exponential(w) && Sane(c) && HasFinite(l)
    ensures Truncates(Cooled(l, c.temperature), Truncated(w, l, c)) && HasFinite(Truncated(w, l, c))
  {
    hide TopK, TopP, MinP, Cooled, Truncates, HasFinite;
    var cool := Cooled(l, c.temperature);
    SomeFinite(l);
    CooledFollows(l, c.temperature, ArgMax(l), ArgMax(l));
    AnyFinite(cool, ArgMax(l));
    var a := TopK(cool, c.topK);
    TopKTruncates(cool, c.topK);
    Leaves(cool, a);
    var b := TopP(w, a, c.topP);
    TopPTruncates(w, a, c.topP);
    Leaves(a, b);
    MinPTruncates(w, b, c.minP);
    Leaves(b, MinP(w, b, c.minP));
    TruncatesMore(cool, a, b);
    TruncatesMore(cool, b, MinP(w, b, c.minP));
  }

  lemma Leaves(l: seq<Logit>, m: seq<Logit>)
    requires Truncates(l, m) && HasFinite(l)
    ensures HasFinite(m)
  {
  }

  // ----- the draw -----

  lemma {:induction false} DrawFromIs(probs: seq<real>, r: real, n: nat, i: nat)
    requires forall k :: 0 <= k < |probs| ==> probs[k] >= 0.0
    requires n <= |probs| && Mass(probs[..n]) <= r
    ensures DrawFrom(probs, r, n, Mass(probs[..n])) == Some(i)
        <==> n <= i < |probs| && Mass(probs[..i]) <= r < Mass(probs[..i + 1])
    decreases |probs| - n
  {
    if n < |probs| {
      assert probs[..n + 1][..n] == probs[..n];
      if r < Mass(probs[..n + 1]) {
        if n < i < |probs| {
          MassGrows(probs, n + 1, i);
        }
      } else {
        DrawFromIs(probs, r, n + 1, i);
      }
    }
  }

  lemma {:induction false} MassGrows(probs: seq<real>, n: nat, i: nat)
    requires forall k :: 0 <= k < |probs| ==> probs[k] >= 0.0
    requires n <= i <= |probs|
    ensures Mass(probs[..n]) <= Mass(probs[..i])
  {
    if n < i {
      MassGrows(probs, n, i - 1);
      assert probs[..i][..i - 1] == probs[..i - 1];
    }
  }

  lemma {:induction false} DrawFromFinds(probs: seq<real>, r: real, n: nat)
    requires n <= |probs| && Mass(probs[..n]) <= r < Mass(probs)
    ensures DrawFrom(probs, r, n, Mass(probs[..n])).Some?
    decreases |probs| - n
  {
    assert probs[..|probs|] == probs;
    if n < |probs| {
      assert probs[..n + 1][..n] == probs[..n];
      if r >= Mass(probs[..n + 1]) {
        DrawFromFinds(probs, r, n + 1);
      }
    }
  }

  /** A draw r in [0, 1) returns i exactly when r is in i's interval of the cumulative mass, an
      interval as long as i's probability; the fallback of the code is never needed. */
  lemma DrawIs(probs: seq<real>, r: real, i: nat)
    requires Distribution(probs) && 0.0 <= r < 1.0
    ensures Multinomial(probs, r).Some?
    ensures Multinomial(probs, r) == Some(i)
        <==> i < |probs| && Mass(probs[..i]) <= r < Mass(probs[..i]) + probs[i]
    ensures Multinomial(probs, r) == Some(i) ==> i < |probs| && probs[i] > 0.0
  {
    assert probs[..0] == [];
    DrawFromIs(probs, r, 0, i);
    DrawFromFinds(probs, r, 0);
    if i < |probs| {
      assert probs[..i + 1][..i] == probs[..i];
    }
  }

  /** With some finite unsuppressed logit the sampler returns a token, and only one that was
      finite and not suppressed; under a positive temperature it is one that survived. */
  lemma SampleIsSafe(w: real -> real, l: seq<Logit>, history: seq<int>, c: Config, r: real)
    requires Exponential(w) && Sane(c) && 0.0 <= r < 1.0
    requires exists i: nat :: i < |l| && l[i].Fin? && i !in c.suppressed
    ensures var id := Sample(w, l, history, c, r);
      && id.Some? && id.value < |l| && l[id.value].Fin? && id.value !in c.suppressed
      && (c.temperature > 0.0 ==> Truncated(w, Adjusted(l, history, c), c)[id.value].Fin?)
  {
    hide Adjusted, Truncated, Softmax, Multinomial, Distribution;
    var i: nat :| i < |l| && l[i].Fin? && i !in c.suppressed;
    var work := Adjusted(l, history, c);
    AdjustedIs(l, history, c, i);
    AnyFinite(work, i);
    SomeFinite(work);
    if c.temperature == 0.0 {
      AdjustedIs(l, history, c, ArgMax(work));
    } else {
      PipelineTruncates(w, work, c);
      var final := Truncated(w, work, c);
      SoftmaxIs(w, final);
      DrawIs(Softmax(w, final), r, 0);
      var id := Multinomial(Softmax(w, final), r).value;
      DrawIs(Softmax(w, final), r, id);
      SurvivorWasFinite(work, c, final, id);
      AdjustedIs(l, history, c, id);
    }
  }

  lemma SurvivorWasFinite(l: seq<Logit>, c: Config, m: seq<Logit>, i: nat)
    requires Truncates(Cooled(l, c.temperature), m) && c.temperature >= 0.0 && i < |m| && m[i].Fin?
    ensures l[i].Fin?
  {
    CooledFollows(l, c.temperature, i, i);
  }
}
