/** The tokens of any number of typical rounds are distributed as the target's own. */
module SpeculativeStream {
  import opened Prelude
  import opened SamplerModel
  import opened SamplerProofs
  import opened SpeculativeModel
  import opened SpeculativeTypical

  /** Next-token distributions of the two models over one vocabulary, the draft length, and where
      the sampler's numbers and the decoder's come from. */
  datatype Models = Models(target: seq<int> -> seq<real>, draft: seq<int> -> seq<real>, size: nat, depth: nat,
    generators: Generators)

  ghost predicate Proper(m: Models) {
    forall h: seq<int> :: |m.target(h)| == |m.draft(h)| == m.size
      && Distribution(m.target(h)) && Distribution(m.draft(h))
  }

  /** The sampler was passed in with a generator of its own. Only then is the chance that a token is
      drawn and passes its test the product of the two chances. */
  predicate Independent(m: Models) {
    m.generators.Separate?
  }

  predicate Words(m: Models, w: seq<nat>) {
    forall i :: 0 <= i < |w| ==> w[i] < m.size
  }

  /** The chance that the target alone continues h with w. */
  ghost function Alone(m: Models, h: seq<int>, w: seq<nat>): real
    requires Proper(m) && Words(m, w)
    decreases |w|
  {
    if w == [] then 1.0 else Times(m.target(h)[w[0]], Alone(m, h + [w[0]], w[1..]))
  }

  /** The chance that rounds from h on continue it with w: draft all, verify, and start over. */
  ghost function Rounds(m: Models, h: seq<int>, w: seq<nat>): real
    requires Proper(m) && Independent(m) && Words(m, w)
    decreases |w|, 3, 0, 0, 0
  {
    if w == [] then 1.0 else Drafting(m, h, [], m.depth, w)
  }

  /** The same in the middle of a draft: d is drafted, k more tokens will be. */
  ghost function Drafting(m: Models, h: seq<int>, d: seq<nat>, k: nat, w: seq<nat>): real
    requires Proper(m) && Independent(m) && Words(m, w) && Words(m, d)
    decreases |w|, 2, k, 1, 0
  {
    if k == 0 then Verifying(m, h, d, w) else DraftSum(m, h, d, k, w, m.size)
  }

  /** The average over the first n choices of the next drafted token. */
  ghost function DraftSum(m: Models, h: seq<int>, d: seq<nat>, k: nat, w: seq<nat>, n: nat): real
    requires Proper(m) && Independent(m) && Words(m, w) && Words(m, d) && k > 0 && n <= m.size
    decreases |w|, 2, k, 0, n
  {
    if n == 0 then 0.0
    else DraftSum(m, h, d, k, w, n - 1) + Times(m.draft(h + d)[n - 1], Drafting(m, h, d + [n - 1], k - 1, w))
  }

  /** The chance that d[0] is accepted and is the token wanted. */
  ghost function Hit(m: Models, h: seq<int>, x: nat, y: nat): real {
    if x == y then Accept(m.target(h), m.draft(h), x) else 0.0
  }

  /** The chance that x is rejected and y drawn in its place. */
  ghost function Miss(m: Models, h: seq<int>, x: nat, y: nat): real
    requires Proper(m) && y < m.size
  {
    Times(1.0 - Accept(m.target(h), m.draft(h), x), Residual(m.target(h), m.draft(h))[y])
  }

  /** The same with the draft complete: accept, or correct and start the next round; with
      everything accepted the bonus token comes from the target. */
  ghost function Verifying(m: Models, h: seq<int>, d: seq<nat>, w: seq<nat>): real
    requires Proper(m) && Independent(m) && Words(m, w) && Words(m, d)
    decreases |w|, 1, 0, 0, 0
  {
    if w == [] then 1.0
    else if d == [] then Times(m.target(h)[w[0]], Rounds(m, h + [w[0]], w[1..]))
    else
      Times(Hit(m, h, d[0], w[0]), Verifying(m, h + [d[0]], d[1..], w[1..]))
      + Times(Miss(m, h, d[0], w[0]), Rounds(m, h + [w[0]], w[1..]))
  }

  // ----- algebra -----

  lemma Spread(a: real, b: real, c: real, s: real, t: real, q: real)
    ensures Times(a, s) + Times(b, t) + Times(q, Times(a, c) + b)
         == Times(a, s + Times(q, c)) + Times(b, t + q)
  {
  }

  lemma Unit(a: real, b: real)
    ensures Times(a, 0.0) + Times(b, 0.0) == 0.0
    ensures Times(b, 1.0) == b
  {
  }

  // ----- the first drafted token -----

  lemma DraftTotal(m: Models, h: seq<int>)
    requires Proper(m)
    ensures Mass(m.draft(h)[..m.size]) == 1.0
  {
    assert Distribution(m.draft(h));
    MassNext(m.draft(h), 0);
  }

  /** The verification of a draft's first token can be taken out of the average over the rest. */
  lemma {:induction false} Peel(m: Models, h: seq<int>, x: nat, d: seq<nat>, k: nat, w: seq<nat>)
    requires Proper(m) && Independent(m) && Words(m, w) && Words(m, d) && x < m.size && w != []
    ensures Words(m, [x] + d)
    ensures Drafting(m, h, [x] + d, k, w)
         == Times(Hit(m, h, x, w[0]), Drafting(m, h + [x], d, k, w[1..]))
          + Times(Miss(m, h, x, w[0]), Rounds(m, h + [w[0]], w[1..]))
    decreases k, 1, 0
  {
    hide Proper, Hit, Miss, Times, Rounds;
    assert ([x] + d)[1..] == d;
    if k > 0 {
      PeelSum(m, h, x, d, k, w, m.size);
      DraftTotal(m, h + [x] + d);
      Unit(0.0, Times(Miss(m, h, x, w[0]), Rounds(m, h + [w[0]], w[1..])));
    }
  }

  lemma {:induction false} PeelSum(m: Models, h: seq<int>, x: nat, d: seq<nat>, k: nat, w: seq<nat>, n: nat)
    requires Proper(m) && Independent(m) && Words(m, w) && Words(m, d) && x < m.size && w != [] && k > 0 && n <= m.size
    ensures Words(m, [x] + d) && n <= |m.draft(h + [x] + d)|
    ensures DraftSum(m, h, [x] + d, k, w, n)
         == Times(Hit(m, h, x, w[0]), DraftSum(m, h + [x], d, k, w[1..], n))
          + Times(Times(Miss(m, h, x, w[0]), Rounds(m, h + [w[0]], w[1..])), Mass(m.draft(h + [x] + d)[..n]))
    decreases k, 0, n
  {
    hide Hit, Miss, Times, Rounds, Drafting, Proper, Mass;
    Sized(m, h + [x] + d);
    MassNext(m.draft(h + [x] + d), n);
    var a, b := Hit(m, h, x, w[0]), Times(Miss(m, h, x, w[0]), Rounds(m, h + [w[0]], w[1..]));
    if n == 0 {
      Unit(a, b);
    } else {
      PeelSum(m, h, x, d, k, w, n - 1);
      Peel(m, h, x, d + [n - 1], k - 1, w);
      assert [x] + d + [n - 1] == [x] + (d + [n - 1]);
      assert h + ([x] + d) == h + [x] + d;
      var q, c := m.draft(h + [x] + d)[n - 1], Drafting(m, h + [x], d + [n - 1], k - 1, w[1..]);
      Spread(a, b, c, DraftSum(m, h + [x], d, k, w[1..], n - 1), Mass(m.draft(h + [x] + d)[..n - 1]), q);
    }
  }

  lemma Sized(m: Models, h: seq<int>)
    requires Proper(m)
    ensures |m.target(h)| == |m.draft(h)| == m.size
    ensures Distribution(m.target(h)) && Distribution(m.draft(h))
  {
  }

  // ----- whole streams -----

  /** The part of a position's chance to emit y that the first n drafted tokens account for. */
  ghost function EmitsBy(p: seq<real>, q: seq<real>, y: nat, n: nat): real
    requires |p| == |q| && y < |p| && n <= |p|
  {
    (if y < n then Times(q[y], Accept(p, q, y)) else 0.0)
    + Times(Mass(q[..n]) - Dot(q, Accepts(p, q), n), Residual(p, q)[y])
  }

  lemma EmitsStep(p: seq<real>, q: seq<real>, y: nat, n: nat, g: real)
    requires |p| == |q| && y < |p| && 0 < n <= |p|
    ensures Times(g, EmitsBy(p, q, y, n)) == Times(g, EmitsBy(p, q, y, n - 1))
      + Times(q[n - 1], Times(if n - 1 == y then Accept(p, q, n - 1) else 0.0, g)
                      + Times(Times(1.0 - Accept(p, q, n - 1), Residual(p, q)[y]), g))
  {
    hide Residual, Accept;
    var a, r, z := Accept(p, q, n - 1), Residual(p, q)[y], q[n - 1];
    MassNext(q, n);
    var s := Mass(q[..n - 1]) - Dot(q, Accepts(p, q), n - 1);
    Rearrange(a, r, z, s, g, if y == n - 1 then 1.0 else 0.0, if y < n - 1 then Times(q[y], Accept(p, q, y)) else 0.0);
  }

  lemma Rearrange(a: real, r: real, z: real, s: real, g: real, one: real, e: real)
    requires one == 0.0 || one == 1.0
    ensures Times(g, e + one * Times(z, a) + Times(s + z - Times(z, a), r))
         == Times(g, e + Times(s, r)) + Times(z, Times(one * a, g) + Times(Times(1.0 - a, r), g))
  {
    assert (s + z - z * a) * r == s * r + z * ((1.0 - a) * r);
    assert g * (e + one * (z * a) + (s * r + z * ((1.0 - a) * r)))
        == g * (e + s * r) + g * (one * (z * a)) + g * (z * ((1.0 - a) * r));
  }

  lemma {:induction false} FirstDraft(m: Models, h: seq<int>, k: nat, w: seq<nat>, n: nat)
    requires Proper(m) && Independent(m) && Words(m, w) && w != [] && k > 0 && n <= m.size
    ensures |m.target(h)| == |m.draft(h)| == m.size
    ensures DraftSum(m, h, [], k, w, n)
         == Times(Alone(m, h + [w[0]], w[1..]), EmitsBy(m.target(h), m.draft(h), w[0], n))
    decreases |w|, 0, k, n
  {
    hide Proper, Accept, Residual, Alone, Rounds, Times, EmitsBy, Drafting;
    Sized(m, h);
    var p, q, y, g := m.target(h), m.draft(h), w[0], Alone(m, h + [w[0]], w[1..]);
    if n == 0 {
      EmitsNone(p, q, y, g);
    } else {
      FirstDraft(m, h, k, w, n - 1);
      assert [] + [n - 1] == [n - 1] + [] && h + [] == h;
      Peel(m, h, n - 1, [], k - 1, w);
      StreamExact(m, h + [n - 1], k - 1, w[1..]);
      RoundsExact(m, h + [y], w[1..]);
      OnlyHits(m, h, n - 1, w);
      EmitsStep(p, q, y, n, g);
    }
  }

  lemma EmitsNone(p: seq<real>, q: seq<real>, y: nat, g: real)
    requires |p| == |q| && y < |p|
    ensures Times(g, EmitsBy(p, q, y, 0)) == 0.0
  {
  }

  /** A drafted token other than the wanted one contributes nothing by being accepted. */
  lemma OnlyHits(m: Models, h: seq<int>, x: nat, w: seq<nat>)
    requires Proper(m) && Words(m, w) && w != [] && x < m.size
    ensures Times(Hit(m, h, x, w[0]), Alone(m, h + [x], w[1..]))
         == Times(if x == w[0] then Accept(m.target(h), m.draft(h), x) else 0.0, Alone(m, h + [w[0]], w[1..]))
  {
    hide Alone, Accept;
  }

  lemma EmitsAll(p: seq<real>, q: seq<real>, y: nat)
    requires |p| == |q| && y < |p| && Distribution(p) && Distribution(q)
    ensures EmitsBy(p, q, y, |p|) == p[y]
  {
    hide Accept, Residual, Dot, Times, Mass, GrantedBy;
    MassNext(q, 0);
    SeparateIsDot(p, q, q, |q|);
    StepExact(p, q, y);
  }

  /** From any point of a fresh draft, with any number of tokens still to draft, the rounds
      continue with w as often as the target alone does. */
  lemma {:induction false} StreamExact(m: Models, h: seq<int>, k: nat, w: seq<nat>)
    requires Proper(m) && Independent(m) && Words(m, w)
    ensures Drafting(m, h, [], k, w) == Alone(m, h, w)
    decreases |w|, 1, k, 0
  {
    hide Proper, Accept, Residual, Times, EmitsBy, DraftSum;
    if w == [] {
      NothingWanted(m, h, [], k);
    } else if k == 0 {
      RoundsExact(m, h + [w[0]], w[1..]);
    } else {
      Sized(m, h);
      FirstDraft(m, h, k, w, m.size);
      EmitsAll(m.target(h), m.draft(h), w[0]);
      Commutes(m.target(h)[w[0]], Alone(m, h + [w[0]], w[1..]));
    }
  }

  lemma Commutes(a: real, b: real)
    ensures Times(a, b) == Times(b, a)
  {
  }

  lemma {:induction false} NothingWanted(m: Models, h: seq<int>, d: seq<nat>, k: nat)
    requires Proper(m) && Independent(m) && Words(m, d)
    ensures Drafting(m, h, d, k, []) == 1.0
    decreases k, 1, 0
  {
    hide Proper;
    if k > 0 {
      NothingSummed(m, h, d, k, m.size);
      DraftTotal(m, h + d);
    }
  }

  lemma {:induction false} NothingSummed(m: Models, h: seq<int>, d: seq<nat>, k: nat, n: nat)
    requires Proper(m) && Independent(m) && Words(m, d) && k > 0 && n <= m.size
    ensures n <= |m.draft(h + d)| && DraftSum(m, h, d, k, [], n) == Mass(m.draft(h + d)[..n])
    decreases k, 0, n
  {
    hide Proper, Drafting, Mass;
    Sized(m, h + d);
    MassNext(m.draft(h + d), n);
    if n > 0 {
      NothingSummed(m, h, d, k, n - 1);
      NothingWanted(m, h, d + [n - 1], k - 1);
      Unit(0.0, m.draft(h + d)[n - 1]);
    }
  }

  /** With independent generators a stream of rounds starts with w exactly as often as the target
      alone produces w, for every draft model, draft length and w. */
  lemma RoundsExact(m: Models, h: seq<int>, w: seq<nat>)
    requires Proper(m) && Independent(m) && Words(m, w)
    ensures Rounds(m, h, w) == Alone(m, h, w)
    decreases |w|, 2, 0, 0
  {
    if w != [] {
      StreamExact(m, h, m.depth, w);
    }
  }

  // ----- the decoder's own random choices -----

  /** The residual is a distribution, so a correction is drawn as it says: i exactly for a
      number in i's interval, which is as long as i's share of the residual. */
  lemma CorrectionIsDrawn(p: seq<real>, q: seq<real>, r: real, i: nat)
    requires |p| == |q| && Distribution(p) && Distribution(q) && 0.0 <= r < 1.0
    ensures var res := Residual(p, q);
      && Distribution(res)
      && (Draw(res, r) == i <==> i < |res| && Mass(res[..i]) <= r < Mass(res[..i]) + res[i])
  {
    hide Mass, DrawFrom;
    var res := Residual(p, q);
    ResidualIs(p, q);
    MassNext(res, 0);
    if i < |res| {
      MassNext(res, i + 1);
    }
    DrawFromFinds(res, r, 0);
    DrawFromIs(res, r, 0, i);
  }

  lemma ResidualIs(p: seq<real>, q: seq<real>)
    requires |p| == |q| && Distribution(p) && Distribution(q)
    ensures Distribution(Residual(p, q))
  {
    hide Mass;
    var total := Mass(Excess(p, q));
    if total > 0.0 {
      MassScales(Excess(p, q), total);
      Itself(total);
      forall i | 0 <= i < |p| ensures Residual(p, q)[i] >= 0.0 {
        Divides(Excess(p, q)[i], 0.0, total);
        Divides(0.0, Excess(p, q)[i], total);
      }
    }
  }

  /** A configuration under which the sampler does nothing but draw from the tempered softmax. */
  predicate PlainSampling(c: Config, size: nat) {
    && c.bias == map[] && c.suppressed == [] && Unpenalized(c) && c.temperature >= 0.000001
    && (c.topK <= 0 || c.topK >= size) && c.topP >= 1.0 && c.minP <= 0.0
  }

  /** Then what the draft tokens are drawn from is what is recorded for them. */
  lemma RecordedAreSampled(e: Env, logits: seq<Logit>, history: seq<int>)
    requires PlainSampling(e.config, |logits|) && e.config.repetition > 0.0
    ensures Softmax(e.weight, Truncated(e.weight, Adjusted(logits, history, e.config), e.config)) == Chances(e, logits)
  {
    hide Softmax;
    assert Biased(logits, map[]) == logits && Suppressed(logits, []) == logits;
    assert Adjusted(logits, history, e.config) == logits;
  }

  /** The distributions the decoder verifies and drafts with. */
  ghost predicate Describes(m: Models, e: Env) {
    && m.depth == e.depth
    && (forall h: seq<int> :: m.target(h) == Chances(e, e.target(h)))
    && (forall h: seq<int> :: m.draft(h) == Chances(e, e.draft(h)))
  }

  /** A forward pass that scores the whole vocabulary and rules out not all of it. */
  ghost predicate Scores(model: Model, size: nat) {
    forall h: seq<int> :: |model(h)| == size && HasFinite(model(h))
  }

  lemma ChancesAre(e: Env, logits: seq<Logit>)
    requires Exponential(e.weight) && HasFinite(logits)
    ensures |Chances(e, logits)| == |logits| && Distribution(Chances(e, logits))
  {
    hide Softmax, Exponential;
    var t := if e.config.temperature > 0.000001 then e.config.temperature else 0.000001;
    SomeFinite(logits);
    CooledFollows(logits, t, ArgMax(logits), ArgMax(logits));
    SoftmaxIs(e.weight, Cooled(logits, t));
  }

  lemma ScoresAt(model: Model, size: nat, h: seq<int>)
    requires Scores(model, size)
    ensures |model(h)| == size && HasFinite(model(h))
  {
  }

  /** The decoder's own models satisfy what the theorem asks for. */
  lemma ModelsAreProper(m: Models, e: Env)
    requires Exponential(e.weight) && Describes(m, e) && Scores(e.target, m.size) && Scores(e.draft, m.size)
    ensures Proper(m)
  {
    hide Exponential, HasFinite, Chances, Distribution, Scores;
    forall h: seq<int>
      ensures |m.target(h)| == |m.draft(h)| == m.size && Distribution(m.target(h)) && Distribution(m.draft(h))
    {
      ScoresAt(e.target, m.size, h);
      ScoresAt(e.draft, m.size, h);
      ChancesAre(e, e.target(h));
      ChancesAre(e, e.draft(h));
      assert m.target(h) == Chances(e, e.target(h)) && m.draft(h) == Chances(e, e.draft(h));
    }
  }

  /** The chances above are those of the decoder's own test. It accepts drafted token x exactly
      when the number drawn is below `Accept`, an interval of length Hit(x, x); it puts y in its
      place exactly when that number is not and the next one lies in an interval as long as y's
      share of the residual, so by two numbers whose region has area Miss(x, y). */
  lemma JudgeIs(m: Models, e: Env, h: seq<int>, x: nat, y: nat, at: At)
    requires Proper(m) && Describes(m, e) && e.config.repetition > 0.0 && !e.greedy && x < m.size && y < m.size
    requires 0.0 <= e.decoderRandom(at.decoder + 1) < 1.0
    ensures var accept, res := Accept(m.target(h), m.draft(h), x), Residual(m.target(h), m.draft(h));
      var low := Mass(res[..y]);
      var (put, _) := Judge(e, e.target(h), h, x, m.draft(h), at);
      && 0.0 <= accept <= 1.0 && accept == Hit(m, h, x, x)
      && (put.None? <==> e.decoderRandom(at.decoder) < accept)
      && (put == Some(y) <==>
            e.decoderRandom(at.decoder) >= accept && low <= e.decoderRandom(at.decoder + 1) < low + res[y])
      && Times(1.0 - accept, res[y]) == Miss(m, h, x, y)
  {
    hide Chances, Residual, Accept, Draw, Mass, Distribution, Times;
    Sized(m, h);
    var p, q := m.target(h), m.draft(h);
    assert p == Chances(e, e.target(h));
    assert p[..Min(|p|, |q|)] == p && q[..Min(|p|, |q|)] == q;
    AcceptIsChance(p, q, x);
    CorrectionIsDrawn(p, q, e.decoderRandom(at.decoder + 1), y);
  }

  lemma AcceptIsChance(p: seq<real>, q: seq<real>, x: nat)
    requires |p| == |q| && x < |p| && Distribution(p) && Distribution(q)
    ensures 0.0 <= Accept(p, q, x) <= 1.0
  {
    hide Mass;
    if q[x] > 0.0 {
      Divides(p[x], 0.0, q[x]);
      Divides(0.0, p[x], q[x]);
    }
  }
}
