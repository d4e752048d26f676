/** Speculative decoding on values: the draft model proposes, the target verifies. */
module SpeculativeModel {
  import opened Prelude
  import opened SamplerModel

  /** A forward pass is a function of the token list. */
  type Model = seq<int> -> seq<Logit>

  /** Everything fixed during decoding; the generators are the numbers they will yield. */
  datatype Env = Env(target: Model, draft: Model, weight: real -> real, config: Config,
    greedy: bool, depth: nat, samplerRandom: nat -> real, decoderRandom: nat -> real)

  /** How many numbers each generator has yielded. */
  datatype At = At(sampler: nat, decoder: nat)

  /** The sampler's choice; it consumes a number unless the temperature is zero. */
  function Pick(e: Env, logits: seq<Logit>, history: seq<int>, at: At): (nat, At)
    requires e.config.repetition > 0.0
  {
    var id := Sample(e.weight, logits, history, e.config, e.samplerRandom(at.sampler));
    (if id.Some? then id.value else 0, if e.config.temperature == 0.0 then at else at.(sampler := at.sampler + 1))
  }

  /** Logits over the temperature, which is taken to be at least a millionth. */
  function Tempered(l: seq<Logit>, temperature: real): seq<Logit> {
    Cooled(l, if temperature > 0.000001 then temperature else 0.000001)
  }

  function Chances(e: Env, logits: seq<Logit>): seq<real> {
    Softmax(e.weight, Tempered(logits, e.config.temperature))
  }

  // ----- propose -----

  datatype Draft = Draft(tokens: seq<int>, probs: seq<seq<real>>, at: At)

  function Propose(e: Env, history: seq<int>, n: nat, at: At): (d: Draft)
    requires e.config.repetition > 0.0
    ensures |d.tokens| == |d.probs| == n
    decreases n
  {
    if n == 0 then Draft([], [], at)
    else
      var logits := e.draft(history);
      var (token, at1) := Pick(e, logits, history, at);
      var rest := Propose(e, history + [token], n - 1, at1);
      Draft([token] + rest.tokens, [Chances(e, logits)] + rest.probs, rest.at)
  }

  // ----- verify -----

  /** The chance with which a drafted token x is accepted. */
  function Accept(p: seq<real>, q: seq<real>, x: int): real {
    if 0 <= x < |p| && x < |q| && q[x] > 0.0 then Least(1.0, p[x] / q[x]) else 0.0
  }

  function Excess(p: seq<real>, q: seq<real>): (r: seq<real>)
    requires |p| == |q|
    ensures |r| == |p| && forall i :: 0 <= i < |r| ==> r[i] == if p[i] > q[i] then p[i] - q[i] else 0.0
  {
    seq(|p|, i requires 0 <= i < |p| => if p[i] > q[i] then p[i] - q[i] else 0.0)
  }

  /** What is left of the target after the draft, scaled to one; the target itself when
      nothing is left. */
  function Residual(p: seq<real>, q: seq<real>): (r: seq<real>)
    requires |p| == |q|
    ensures |r| == |p|
  {
    var total := Mass(Excess(p, q));
    if total <= 0.0 then p else Scaled(Excess(p, q), total)
  }

  function Draw(probs: seq<real>, r: real): int {
    var drawn := DrawFrom(probs, r, 0, 0.0);
    if drawn.Some? then drawn.value else |probs| - 1
  }

  datatype Outcome = Outcome(tokens: seq<int>, accepted: nat, bonus: Option<int>, at: At)

  function Took(token: int, rest: Outcome): Outcome {
    Outcome([token] + rest.tokens, rest.accepted + 1, rest.bonus, rest.at)
  }

  /** The test of one drafted token: None when it is accepted, otherwise the token in its
      place. In greedy mode it must be the target's best raw logit, in the other it is accepted
      by chance. */
  function Judge(e: Env, logits: seq<Logit>, history: seq<int>, token: int, q: seq<real>, at: At): (Option<int>, At)
    requires e.config.repetition > 0.0
  {
    if e.greedy then
      if logits != [] && token == ArgMax(logits) then (None, at)
      else
        var (corrected, at1) := Pick(e, logits, history, at);
        (Some(corrected), at1)
    else
      var p := Chances(e, logits);
      if e.decoderRandom(at.decoder) < Accept(p, q, token) then (None, at.(decoder := at.decoder + 1))
      else
        var n := Min(|p|, |q|);
        (Some(Draw(Residual(p[..n], q[..n]), e.decoderRandom(at.decoder + 1))), at.(decoder := at.decoder + 2))
  }

  /** Verifying from drafted token i on. */
  function Verify(e: Env, tokens: seq<int>, drafted: seq<int>, probs: seq<seq<real>>, i: nat, at: At): (o: Outcome)
    requires e.config.repetition > 0.0 && i <= |drafted| == |probs|
    ensures 1 <= |o.tokens| <= |drafted| - i + 1
    ensures o.accepted == if o.bonus.Some? then |o.tokens| else |o.tokens| - 1
    decreases |drafted| - i
  {
    var history := tokens + drafted[..i];
    var logits := e.target(history);
    if i == |drafted| then
      var (bonus, at1) := Pick(e, logits, history, at);
      Outcome([bonus], 1, Some(bonus), at1)
    else
      var (corrected, at1) := Judge(e, logits, history, drafted[i], probs[i], at);
      if corrected.Some? then Outcome([corrected.value], 0, None, at1)
      else Took(drafted[i], Verify(e, tokens, drafted, probs, i + 1, at1))
  }

  function Round(e: Env, tokens: seq<int>, at: At): (o: Outcome)
    requires e.config.repetition > 0.0
    ensures 1 <= |o.tokens| <= e.depth + 1
  {
    var d := Propose(e, tokens, e.depth, at);
    Verify(e, tokens, d.tokens, d.probs, 0, d.at)
  }

  /** All tokens of so many rounds. */
  function Rounds(e: Env, tokens: seq<int>, n: nat, at: At): seq<int>
    requires e.config.repetition > 0.0
    decreases n
  {
    if n == 0 then []
    else
      var o := Round(e, tokens, at);
      o.tokens + Rounds(e, tokens + o.tokens, n - 1, o.at)
  }

  // ----- decoding one token at a time -----

  /** The next token of plain greedy decoding. */
  function Best(e: Env, history: seq<int>): int
    requires e.config.repetition > 0.0
  {
    var work := Adjusted(e.target(history), history, e.config);
    if work == [] then 0 else ArgMax(work)
  }

  function Plain(e: Env, history: seq<int>, n: nat): (r: seq<int>)
    requires e.config.repetition > 0.0
    ensures |r| == n
    decreases n
  {
    if n == 0 then [] else [Best(e, history)] + Plain(e, history + [Best(e, history)], n - 1)
  }
}
