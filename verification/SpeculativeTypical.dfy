/** Typical acceptance reproduces the target's distribution exactly when drafts are drawn from the
    recorded probabilities, by numbers that do not decide their acceptance too. */
module SpeculativeTypical {
  import opened Prelude
  import opened SamplerModel
  import opened SamplerProofs
  import opened SpeculativeModel

  // ----- sums -----

  /** The sum of a[x] * b[x] over the first n indices. */
  function Dot(a: seq<real>, b: seq<real>, n: nat): real
    requires n <= |a| && n <= |b|
  {
    if n == 0 then 0.0 else Dot(a, b, n - 1) + Times(a[n - 1], b[n - 1])
  }

  lemma MassNext(a: seq<real>, n: nat)
    requires n <= |a|
    ensures n > 0 ==> Mass(a[..n]) == Mass(a[..n - 1]) + a[n - 1]
    ensures Mass(a[..0]) == 0.0 && a[..|a|] == a
  {
    if n > 0 {
      assert a[..n][..n - 1] == a[..n - 1];
    }
  }

  // ----- one position -----

  /** The acceptance chances of all tokens. */
  function Accepts(p: seq<real>, q: seq<real>): (r: seq<real>)
    requires |p| == |q|
    ensures |r| == |p| && forall x :: 0 <= x < |r| ==> r[x] == Accept(p, q, x)
  {
    seq(|p|, x requires 0 <= x < |p| => Accept(p, q, x))
  }

  /** Where the numbers come from that draw the draft tokens and those that test them: from
      generators of their own, or from two that were seeded alike, so that the number that draws a
      round's first token also tests it. */
  datatype Generators = Separate | Shared

  /** How much of the interval from lo to hi lies below a. */
  function Below(lo: real, hi: real, a: real): real {
    if a <= lo then 0.0 else Least(hi, a) - lo
  }

  /** The chance that x is drawn from d and accepted. A number of its own accepts it with its
      chance of acceptance; the number that drew it lies in x's interval of d, and accepts it when
      it lies below that chance too. */
  function Granted(g: Generators, p: seq<real>, q: seq<real>, d: seq<real>, x: nat): real
    requires |p| == |q| == |d| && x < |d|
  {
    if g.Separate? then Times(d[x], Accept(p, q, x))
    else Below(Mass(d[..x]), Mass(d[..x]) + d[x], Accept(p, q, x))
  }

  function GrantedBy(g: Generators, p: seq<real>, q: seq<real>, d: seq<real>, n: nat): real
    requires |p| == |q| == |d| && n <= |d|
  {
    if n == 0 then 0.0 else GrantedBy(g, p, q, d, n - 1) + Granted(g, p, q, d, n - 1)
  }

  /** The chance of a rejection, when the draft token is drawn from d. */
  function Reject(g: Generators, p: seq<real>, q: seq<real>, d: seq<real>): real
    requires |p| == |q| == |d|
  {
    1.0 - GrantedBy(g, p, q, d, |d|)
  }

  /** The chance that a round starts with y: it was drafted and accepted, or something was
      rejected and y drawn from the residual, by the next number of the testing generator. */
  function Emits(g: Generators, p: seq<real>, q: seq<real>, d: seq<real>, y: nat): real
    requires |p| == |q| == |d| && y < |p|
  {
    Granted(g, p, q, d, y) + Times(Reject(g, p, q, d), Residual(p, q)[y])
  }

  lemma {:induction false} SeparateIsDot(p: seq<real>, q: seq<real>, d: seq<real>, n: nat)
    requires |p| == |q| == |d| && n <= |d|
    ensures GrantedBy(Separate, p, q, d, n) == Dot(d, Accepts(p, q), n)
  {
    hide Accept, Times;
    if n > 0 {
      SeparateIsDot(p, q, d, n - 1);
    }
  }

  lemma AcceptTakes(p: seq<real>, q: seq<real>, y: nat)
    requires |p| == |q| && y < |p| && p[y] >= 0.0 && q[y] >= 0.0
    ensures Times(q[y], Accept(p, q, y)) == Least(p[y], q[y])
  {
    if q[y] > 0.0 {
      Quotient(p[y], q[y]);
    }
  }

  lemma Quotient(a: real, b: real)
    requires b > 0.0
    ensures Times(b, a / b) == a
    ensures a / b >= 1.0 <==> a >= b
  {
    var c := a / b;
    assert c * b == a;
    if c >= 1.0 {
      assert (c - 1.0) * b >= 0.0;
    } else {
      assert (1.0 - c) * b > 0.0;
    }
  }

  /** Rejections have exactly the chance that the residual's tokens are owed. */
  lemma {:induction false} RejectIsExcess(p: seq<real>, q: seq<real>, n: nat)
    requires |p| == |q| && n <= |p| && forall x :: 0 <= x < |p| ==> p[x] >= 0.0 && q[x] >= 0.0
    ensures Dot(q, Accepts(p, q), n) + Mass(Excess(p, q)[..n]) == Mass(p[..n])
  {
    hide Accept, Times, Mass;
    MassNext(p, n);
    MassNext(Excess(p, q), n);
    if n > 0 {
      RejectIsExcess(p, q, n - 1);
      AcceptTakes(p, q, n - 1);
    }
  }

  lemma ExcessTotal(p: seq<real>, q: seq<real>)
    requires |p| == |q| && Distribution(p) && Distribution(q)
    ensures Reject(Separate, p, q, q) == Mass(Excess(p, q)) >= 0.0
  {
    hide Accept, Times, Dot, GrantedBy;
    SeparateIsDot(p, q, q, |q|);
    RejectIsExcess(p, q, |p|);
    MassNext(p, 0);
    MassNext(Excess(p, q), 0);
    MassNonnegative(Excess(p, q));
  }

  /** P(accept y) + P(reject) * residual(y) == target(y), the fallback of an empty residual
      included, when drafts are drawn from the recorded probabilities by a generator of their own. */
  lemma StepExact(p: seq<real>, q: seq<real>, y: nat)
    requires |p| == |q| && y < |p| && Distribution(p) && Distribution(q)
    ensures Emits(Separate, p, q, q, y) == p[y]
  {
    hide Accept, Distribution, Reject;
    ExcessTotal(p, q);
    assert p[y] >= 0.0 && q[y] >= 0.0 by {
      Nonnegative(p, y);
      Nonnegative(q, y);
    }
    AcceptTakes(p, q, y);
    var total := Mass(Excess(p, q));
    if total > 0.0 {
      Quotient(Excess(p, q)[y], total);
    } else {
      NoExcess(p, q, y);
    }
  }

  lemma Nonnegative(p: seq<real>, y: nat)
    requires Distribution(p) && y < |p|
    ensures p[y] >= 0.0
  {
  }

  lemma NoExcess(p: seq<real>, q: seq<real>, y: nat)
    requires |p| == |q| && y < |p|
    ensures Mass(Excess(p, q)) <= 0.0 ==> p[y] <= q[y]
  {
    MassNonnegative(Excess(p, q));
    if p[y] > q[y] {
      assert Excess(p, q)[y] > 0.0;
    }
  }

  // ----- drafts drawn from something else, or by the same numbers -----

  /** Drafting from d while recording q serves every target. */
  ghost predicate ServesEveryTarget(g: Generators, q: seq<real>, d: seq<real>)
    requires |q| == |d|
  {
    forall p: seq<real>, y: nat | |p| == |q| && Distribution(p) && y < |p| :: Emits(g, p, q, d, y) == p[y]
  }

  /** A draft that is its own target is always accepted, whatever tests it. */
  lemma {:induction false} AlwaysAccepted(g: Generators, q: seq<real>, d: seq<real>, n: nat)
    requires |q| == |d| && n <= |d| && Distribution(d) && forall x :: 0 <= x < |q| ==> q[x] > 0.0
    ensures GrantedBy(g, q, q, d, n) == Mass(d[..n])
    ensures n > 0 ==> Granted(g, q, q, d, n - 1) == d[n - 1]
  {
    hide Mass;
    MassNext(d, n);
    if n > 0 {
      AlwaysAccepted(g, q, d, n - 1);
      Quotient(q[n - 1], q[n - 1]);
      MassBelowOne(d, n);
    }
  }

  lemma MassBelowOne(d: seq<real>, n: nat)
    requires Distribution(d) && n <= |d|
    ensures Mass(d[..n]) <= 1.0
  {
    MassNext(d, 0);
    MassGrows(d, n, |d|);
  }

  /** A target that takes from the last token most of what the draft gives it, and gives it to the
      first. */
  function Starved(q: seq<real>): (p: seq<real>)
    requires |q| >= 2
    ensures |p| == |q|
  {
    var last := q[|q| - 1];
    [q[0] + Times(last, last)] + q[1..|q| - 1] + [Times(last, 1.0 - last)]
  }

  lemma StarvedIs(q: seq<real>)
    requires |q| >= 2 && Distribution(q) && forall x :: 0 <= x < |q| ==> q[x] > 0.0
    ensures var n := |q| - 1;
      && Distribution(Starved(q)) && 0.0 < Starved(q)[n] < q[n] < 1.0 && Mass(q[..n]) == 1.0 - q[n]
      && Accept(Starved(q), q, n) == Mass(q[..n]) && Starved(q)[0] > q[0]
  {
    hide Mass;
    var n := |q| - 1;
    var last, p := q[n], Starved(q);
    MassNext(q, n);
    MassNext(q, 0);
    MassNext(q, |q|);
    MassNonnegative(q[..n]);
    assert q[..n][0] == q[0] > 0.0;
    Share(last);
    MassNext(p, |p|);
    MassNext(p, 0);
    assert p[..n] == q[..n][0 := q[0] + Times(last, last)];
    MassSet(q[..n], 0, q[0] + Times(last, last));
    Quotient(p[n], last);
    Same(p[n] / last, 1.0 - last, last);
  }

  lemma Share(a: real)
    requires 0.0 < a < 1.0
    ensures 0.0 < Times(a, 1.0 - a) < a && Times(a, a) > 0.0 && Times(a, a) + Times(a, 1.0 - a) == a
  {
    var b := 1.0 - a;
    assert a * b > 0.0 && a * a > 0.0;
    assert a * a + a * b == a * (a + b);
  }

  lemma Same(a: real, b: real, c: real)
    requires c > 0.0 && Times(c, a) == Times(c, b)
    ensures a == b
  {
    assert c * (a - b) == 0.0;
  }

  lemma {:induction false} MassSet(s: seq<real>, i: nat, x: real)
    requires i < |s|
    ensures Mass(s[i := x]) == Mass(s) + x - s[i]
  {
    var n := |s| - 1;
    assert s[i := x][..n] == if i < n then s[..n][i := x] else s[..n];
    if i < n {
      MassSet(s[..n], i, x);
    }
  }

  /** By the numbers that drew them no draft is accepted as the last token, nor drawn in its place. */
  lemma StarvedNever(q: seq<real>)
    requires |q| >= 2 && Distribution(q) && forall x :: 0 <= x < |q| ==> q[x] > 0.0
    ensures Emits(Shared, Starved(q), q, q, |q| - 1) == 0.0
    ensures Residual(Starved(q), q)[|q| - 1] == 0.0
  {
    hide Mass, GrantedBy, Accept, Distribution;
    StarvedIs(q);
    var p := Starved(q);
    ExcessSome(p, q, 0);
    assert Excess(p, q)[|q| - 1] == 0.0;
    assert Residual(p, q)[|q| - 1] == 0.0 by {
      Quotient(0.0, Mass(Excess(p, q)));
      Same(0.0 / Mass(Excess(p, q)), 0.0, Mass(Excess(p, q)));
    }
    Zero(Reject(Shared, p, q, q));
  }

  lemma Zero(a: real)
    ensures Times(a, 0.0) == 0.0
  {
  }

  lemma ExcessSome(p: seq<real>, q: seq<real>, i: nat)
    requires |p| == |q| && i < |p| && p[i] > q[i]
    ensures Mass(Excess(p, q)) > 0.0
  {
    MassNonnegative(Excess(p, q));
    assert Excess(p, q)[i] > 0.0;
  }

  lemma OnlyToken(p: seq<real>, q: seq<real>)
    requires |p| == |q| == 1 && Distribution(p) && Distribution(q)
    ensures Emits(Shared, p, q, q, 0) == p[0]
  {
    MassNext(p, 0);
    MassNext(q, 0);
    MassNext(p, 1);
    MassNext(q, 1);
    assert p[0] == 1.0 && q[0] == 1.0;
    Quotient(p[0], q[0]);
    Same(p[0] / q[0], 1.0, q[0]);
    assert Accept(p, q, 0) == 1.0;
    assert Granted(Shared, p, q, q, 0) == 1.0;
    assert GrantedBy(Shared, p, q, q, 1) == GrantedBy(Shared, p, q, q, 0) + 1.0;
  }

  /** The scheme is exact for every target precisely when the draft tokens really come from the
      recorded probabilities, which softmax keeps positive, and are not tested by the number that
      drew them: truncating or penalizing the draft sampler breaks it, and so does a sampler seeded
      like the decoder, unless there is only one token. */
  lemma ExactlyRecordedDrafts(g: Generators, q: seq<real>, d: seq<real>)
    requires |q| == |d| && Distribution(q) && Distribution(d) && forall x :: 0 <= x < |q| ==> q[x] > 0.0
    ensures ServesEveryTarget(g, q, d) <==> q == d && (g.Separate? || |q| == 1)
  {
    hide Emits, Distribution;
    if q != d {
      OtherDraftShows(g, q, d);
    } else if g.Separate? {
      forall p: seq<real>, y: nat | |p| == |q| && Distribution(p) && y < |p| ensures Emits(g, p, q, d, y) == p[y] {
        StepExact(p, q, y);
      }
    } else if |q| == 1 {
      forall p: seq<real>, y: nat | |p| == |q| && Distribution(p) && y < |p| ensures Emits(g, p, q, d, y) == p[y] {
        OnlyToken(p, q);
      }
    } else {
      HasToken(q);
      StarvedIs(q);
      StarvedNever(q);
      assert Emits(g, Starved(q), q, d, |q| - 1) != Starved(q)[|q| - 1];
    }
  }

  lemma HasToken(q: seq<real>)
    requires Distribution(q)
    ensures |q| > 0
  {
  }

  lemma OtherDraftShows(g: Generators, q: seq<real>, d: seq<real>)
    requires |q| == |d| && Distribution(q) && Distribution(d) && q != d
    requires forall x :: 0 <= x < |q| ==> q[x] > 0.0
    ensures !ServesEveryTarget(g, q, d)
  {
    hide Accept, Residual, Mass;
    var y: nat :| y < |q| && q[y] != d[y];
    AlwaysAccepted(g, q, d, |d|);
    AlwaysAccepted(g, q, d, y + 1);
    MassNext(d, 0);
    assert Emits(g, q, q, d, y) == d[y];
  }

  /** A draft cut down to its best token, with the uncut probabilities recorded. */
  lemma TruncatedDraftShows(g: Generators)
    ensures !ServesEveryTarget(g, [0.75, 0.25], [1.0, 0.0])
  {
    hide ServesEveryTarget;
    var q, d := [0.75, 0.25], [1.0, 0.0];
    MassNext(q, 1);
    MassNext(q, 2);
    MassNext(d, 1);
    MassNext(d, 2);
    assert Distribution(q) && Distribution(d);
    ExactlyRecordedDrafts(g, q, d);
    assert q[0] != d[0];
  }
}
