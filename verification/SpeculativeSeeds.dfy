/** How the tokens of a round depend on the numbers that the sampler and the decoder draw, and what
    a sampler seeded like the decoder makes of it. */
module SpeculativeSeeds {
  import opened Prelude
  import opened SamplerModel
  import opened SamplerProofs
  import opened SpeculativeModel
  import opened SpeculativeTypical
  import opened SpeculativeStream

  /** The number r draws token i from the cumulative intervals. */
  predicate Draws(probs: seq<real>, r: real, i: nat) {
    i < |probs| && Mass(probs[..i]) <= r < Mass(probs[..i]) + probs[i]
  }

  /** Numbers as the generators yield them. */
  ghost predicate InRange(random: nat -> real) {
    forall n: nat :: 0.0 <= random(n) < 1.0
  }

  /** What the theorems about whole streams assume of a decoder. */
  ghost predicate Decodes(m: Models, e: Env) {
    && Proper(m) && Describes(m, e) && PlainSampling(e.config, m.size) && e.config.repetition > 0.0
    && !e.greedy && e.depth > 0 && Scores(e.draft, m.size)
    && InRange(e.samplerRandom) && InRange(e.decoderRandom)
  }

  /** The sampler draws x from the recorded probabilities, by its own next number. */
  lemma PickIs(m: Models, e: Env, h: seq<int>, at: At)
    requires Decodes(m, e)
    ensures var (x, at1) := Pick(e, e.draft(h), h, at);
      && x < m.size && Draws(m.draft(h), e.samplerRandom(at.sampler), x)
      && at1 == at.(sampler := at.sampler + 1)
  {
    hide Softmax, Truncated, Mass, Adjusted, Scores, Distribution, Multinomial, Chances;
    Sized(m, h);
    ScoresAt(e.draft, m.size, h);
    RecordedAreSampled(e, e.draft(h), h);
    var q, r := m.draft(h), e.samplerRandom(at.sampler);
    assert q == Chances(e, e.draft(h));
    DrawIs(q, r, Pick(e, e.draft(h), h, at).0);
  }

  lemma {:induction false} ProposeKeepsDecoder(e: Env, history: seq<int>, n: nat, at: At)
    requires e.config.repetition > 0.0
    ensures Propose(e, history, n, at).at.decoder == at.decoder
    decreases n
  {
    hide Sample, Chances;
    if n > 0 {
      var (token, at1) := Pick(e, e.draft(history), history, at);
      ProposeKeepsDecoder(e, history + [token], n - 1, at1);
    }
  }

  lemma DrawsOne(probs: seq<real>, r: real, x: nat)
    requires Distribution(probs) && 0.0 <= r < 1.0 && Draws(probs, r, x)
    ensures forall i: nat :: Draws(probs, r, i) ==> i == x
  {
    hide Mass, Multinomial;
    forall i: nat | Draws(probs, r, i) ensures i == x {
      DrawIs(probs, r, i);
      DrawIs(probs, r, x);
    }
  }

  /** What decides the first token of a round: the first draft token and its test. */
  lemma RoundOpens(e: Env, h: seq<int>, at: At)
    requires e.config.repetition > 0.0 && e.depth > 0
    ensures var x := Pick(e, e.draft(h), h, at).0;
      var tested := Propose(e, h, e.depth, at).at;
      var put := Judge(e, e.target(h), h, x, Chances(e, e.draft(h)), tested).0;
      tested.decoder == at.decoder && Round(e, h, at).tokens[0] == if put.Some? then put.value else x
  {
    hide Pick, Judge, Chances;
    ProposeKeepsDecoder(e, h, e.depth, at);
    var d := Propose(e, h, e.depth, at);
    assert h + d.tokens[..0] == h;
  }

  /** A round starts with y exactly when the sampler's number draws y and the decoder's accepts it,
      or the sampler's draws some token the decoder's rejects and the decoder's next one draws y from
      the residual. */
  lemma RoundStarts(m: Models, e: Env, h: seq<int>, at: At, y: nat)
    requires Decodes(m, e) && y < m.size
    ensures |m.target(h)| == |m.draft(h)| == m.size
    ensures var p, q := m.target(h), m.draft(h);
      var r, u, v := e.samplerRandom(at.sampler), e.decoderRandom(at.decoder), e.decoderRandom(at.decoder + 1);
      Round(e, h, at).tokens[0] == y <==>
        || (Draws(q, r, y) && u < Accept(p, q, y))
        || (Draws(Residual(p, q), v, y) && exists x: nat :: Draws(q, r, x) && u >= Accept(p, q, x))
  {
    hide Pick, Judge, Accept, Residual, Mass, Chances, Distribution, PlainSampling, Scores, Times, Round, Propose;
    Sized(m, h);
    PickIs(m, e, h, at);
    RoundOpens(e, h, at);
    var x, tested := Pick(e, e.draft(h), h, at).0, Propose(e, h, e.depth, at).at;
    DrawsOne(m.draft(h), e.samplerRandom(at.sampler), x);
    assert m.draft(h) == Chances(e, e.draft(h));
    assert 0.0 <= e.decoderRandom(tested.decoder + 1) < 1.0;
    JudgeIs(m, e, h, x, y, tested);
  }

  // ----- one number for both -----

  /** The sampler and the decoder were seeded alike, as they are when no sampler is passed in. */
  ghost predicate SeededAlike(e: Env) {
    forall n: nat :: e.samplerRandom(n) == e.decoderRandom(n)
  }

  /** The number r lies in the interval of the chance Granted(Shared). */
  predicate Falls(p: seq<real>, q: seq<real>, r: real, y: nat)
    requires |p| == |q|
  {
    y < |p| && Mass(q[..y]) <= r < Mass(q[..y]) + Granted(Shared, p, q, q, y)
  }

  /** Then one number draws and accepts y exactly when it lies there. */
  lemma GrantedIs(p: seq<real>, q: seq<real>, r: real, y: nat)
    requires |p| == |q| && y < |p| && q[y] >= 0.0
    ensures Draws(q, r, y) && r < Accept(p, q, y) <==> Falls(p, q, r, y)
  {
    hide Mass, Accept;
  }

  /** A round at the start of the two streams, or wherever they are level, starts with y exactly when
      its first number falls in y's interval, or falls in none and the next one draws y from the
      residual: the chances that make up Emits(Shared). */
  lemma AlikeStarts(m: Models, e: Env, h: seq<int>, n: nat, y: nat)
    requires Decodes(m, e) && SeededAlike(e) && y < m.size
    ensures |m.target(h)| == |m.draft(h)| == m.size
    ensures var p, q := m.target(h), m.draft(h);
      var r, v := e.decoderRandom(n), e.decoderRandom(n + 1);
      Round(e, h, At(n, n)).tokens[0] == y <==>
        || Falls(p, q, r, y)
        || (Draws(Residual(p, q), v, y) && forall x: nat :: !Falls(p, q, r, x))
  {
    hide Accept, Residual, Mass, Decodes, Round, Granted, Falls, Distribution;
    RoundStarts(m, e, h, At(n, n), y);
    OneDraws(m, e, h, n);
    FallsIs(m, e, h, n);
    assert e.samplerRandom(n) == e.decoderRandom(n);
  }

  lemma FallsIs(m: Models, e: Env, h: seq<int>, n: nat)
    requires Decodes(m, e)
    ensures |m.target(h)| == |m.draft(h)|
    ensures forall x: nat :: Falls(m.target(h), m.draft(h), e.decoderRandom(n), x) <==>
      Draws(m.draft(h), e.decoderRandom(n), x) && e.decoderRandom(n) < Accept(m.target(h), m.draft(h), x)
  {
    hide Accept, Mass, PlainSampling, Scores;
    Sized(m, h);
    var p, q, r := m.target(h), m.draft(h), e.decoderRandom(n);
    forall x: nat ensures Falls(p, q, r, x) <==> Draws(q, r, x) && r < Accept(p, q, x) {
      if x < |q| {
        GrantedIs(p, q, r, x);
      }
    }
  }

  lemma OneDraws(m: Models, e: Env, h: seq<int>, n: nat)
    requires Decodes(m, e) && SeededAlike(e)
    ensures exists x: nat :: Draws(m.draft(h), e.decoderRandom(n), x)
    ensures forall x: nat, z: nat ::
      Draws(m.draft(h), e.decoderRandom(n), x) && Draws(m.draft(h), e.decoderRandom(n), z) ==> x == z
  {
    hide Pick, Mass, Distribution, PlainSampling, Scores;
    Sized(m, h);
    PickIs(m, e, h, At(n, n));
    var x := Pick(e, e.draft(h), h, At(n, n)).0;
    assert e.samplerRandom(n) == e.decoderRandom(n);
    DrawsOne(m.draft(h), e.decoderRandom(n), x);
  }

  /** For every draft that can propose at least two tokens there is a target that gives the last one a
      chance, and no round that starts level ever starts with it, whatever the seed. */
  lemma LastNeverStarts(m: Models, e: Env, h: seq<int>, n: nat)
    requires Decodes(m, e) && SeededAlike(e) && m.size >= 2
    requires |m.draft(h)| == m.size && forall x :: 0 <= x < m.size ==> m.draft(h)[x] > 0.0
    requires m.target(h) == Starved(m.draft(h))
    ensures m.target(h)[m.size - 1] > 0.0 && Round(e, h, At(n, n)).tokens[0] != m.size - 1
  {
    hide Accept, Residual, Mass, Round, Starved, PlainSampling, Scores;
    var q, last := m.draft(h), m.size - 1;
    Sized(m, h);
    StarvedIs(q);
    StarvedNever(q);
    AlikeStarts(m, e, h, n, last);
  }

  // ----- the concrete case -----

  /** Positive and increasing, with weight one at zero and a third at minus one. */
  function Weight(x: real): real {
    if x >= 0.0 then 1.0 + x else 1.0 / (1.0 - 2.0 * x)
  }

  /** A target that says 3/4 and 1/4, a draft that says 1/2 and 1/2, one draft token a round, and one
      seed for both generators. */
  function OneSeed(random: nat -> real): Env {
    Env(h => [Fin(1.0), Fin(0.0)], h => [Fin(0.0), Fin(0.0)], Weight,
      Config(1.0, 0, 1.0, 0.0, 1.0, 0.0, 0.0, 0, [], map[]), false, 1, random, random)
  }

  function OneSeedModels(): Models {
    Models(h => [0.75, 0.25], h => [0.5, 0.5], 2, 1, Shared)
  }

  lemma TwoMasses(s: seq<real>)
    requires |s| == 2
    ensures Mass(s) == s[0] + s[1]
  {
    MassNext(s, 1);
    MassNext(s, 2);
  }

  /** Two finite logits, the first no lower, with weights a and b. */
  lemma TwoScaled(e: Env, l: seq<Logit>, a: real, b: real, x: real, y: real)
    requires |l| == 2 && l[0].Fin? && l[1].Fin? && l[0].x >= l[1].x && e.config.temperature == 1.0
    requires e.weight(0.0) == a && e.weight(l[1].x - l[0].x) == b && a + b > 0.0
    requires Times(a + b, x) == a && Times(a + b, y) == b
    ensures Chances(e, l) == [x, y]
  {
    hide Times;
    assert l[..1] == [l[0]];
    assert ArgMax(l) == 0;
    assert Peak(l) == l[0].x;
    TwoMasses(Weights(e.weight, l));
    Quotient(a, a + b);
    Quotient(b, a + b);
    Same(a / (a + b), x, a + b);
    Same(b / (a + b), y, a + b);
  }

  lemma Weights34()
    ensures Weight(0.0) == 1.0 && Times(3.0, Weight(-1.0)) == 1.0
    ensures Times(1.0 + Weight(-1.0), 0.75) == 1.0 && Times(1.0 + Weight(-1.0), 0.25) == Weight(-1.0)
    ensures Times(1.0 + 1.0, 0.5) == 1.0 && Weight(-1.0) > 0.0
  {
    var w := Weight(-1.0);
    assert w * 3.0 == 1.0;
  }

  lemma OneSeedChances(random: nat -> real)
    ensures Chances(OneSeed(random), [Fin(1.0), Fin(0.0)]) == [0.75, 0.25]
    ensures Chances(OneSeed(random), [Fin(0.0), Fin(0.0)]) == [0.5, 0.5]
  {
    hide Chances, Times, Weight;
    Weights34();
    TwoScaled(OneSeed(random), [Fin(1.0), Fin(0.0)], 1.0, Weight(-1.0), 0.75, 0.25);
    TwoScaled(OneSeed(random), [Fin(0.0), Fin(0.0)], 1.0, 1.0, 0.5, 0.5);
  }

  lemma OneSeedProper()
    ensures Proper(OneSeedModels())
  {
    hide Mass;
    TwoMasses([0.75, 0.25]);
    TwoMasses([0.5, 0.5]);
  }

  lemma OneSeedDescribes(random: nat -> real)
    ensures Describes(OneSeedModels(), OneSeed(random)) && Scores(OneSeed(random).draft, 2)
  {
    hide Chances, HasFinite;
    OneSeedChances(random);
    FiniteHere([Fin(0.0), Fin(0.0)]);
  }

  lemma OneSeedDecodes(random: nat -> real)
    requires InRange(random)
    ensures Decodes(OneSeedModels(), OneSeed(random))
  {
    hide Describes, Scores, Proper;
    OneSeedDescribes(random);
    OneSeedProper();
  }

  lemma FiniteHere(l: seq<Logit>)
    requires |l| > 0 && l[0].Fin?
    ensures HasFinite(l)
  {
  }

  /** Whatever the seed, the first token is 0, to which the target gives 3/4. */
  lemma OneSeedShows(random: nat -> real, h: seq<int>)
    requires InRange(random)
    ensures Round(OneSeed(random), h, At(0, 0)).tokens[0] == 0
    ensures Chances(OneSeed(random), OneSeed(random).target(h)) == [0.75, 0.25]
  {
    hide Mass, Round, Falls, Chances;
    var e, m := OneSeed(random), OneSeedModels();
    OneSeedDecodes(random);
    OneSeedChances(random);
    assert Starved([0.5, 0.5]) == [0.75, 0.25];
    LastNeverStarts(m, e, h, 0);
    StartsInside(m, e, h, At(0, 0));
  }

  /** Every round starts with a token of the vocabulary. */
  lemma StartsInside(m: Models, e: Env, h: seq<int>, at: At)
    requires Decodes(m, e)
    ensures 0 <= Round(e, h, at).tokens[0] < m.size
  {
    hide Pick, Chances, Mass, PlainSampling, Scores, Propose, Round;
    Sized(m, h);
    PickIs(m, e, h, at);
    RoundOpens(e, h, at);
    ResidualIs(m.target(h), m.draft(h));
    var tested := Propose(e, h, e.depth, at).at;
    assert m.target(h)[..m.size] == m.target(h) && m.draft(h)[..m.size] == m.draft(h);
    DrawInside(Residual(m.target(h), m.draft(h)), e.decoderRandom(tested.decoder + 1));
  }

  lemma DrawInside(probs: seq<real>, r: real)
    requires |probs| > 0
    ensures 0 <= Draw(probs, r) < |probs|
  {
    DrawnInside(probs, r, 0, 0.0);
  }

  lemma {:induction false} DrawnInside(probs: seq<real>, r: real, n: nat, mass: real)
    requires n <= |probs|
    ensures DrawFrom(probs, r, n, mass).Some? ==> DrawFrom(probs, r, n, mass).value < |probs|
    decreases |probs| - n
  {
    if n < |probs| {
      DrawnInside(probs, r, n + 1, mass + probs[n]);
    }
  }
}
