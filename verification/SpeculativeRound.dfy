/** A round of speculative decoding as a whole: which number decides which token, and from which context each is
    drawn and tested. */
module SpeculativeRound {
  import opened Prelude
  import opened SamplerModel
  import opened SamplerProofs
  import opened SamplerShares
  import opened SpeculativeModel

  // ----- the recorded chances -----

  function Clamped(t: real): real {
    if t > 0.000001 then t else 0.000001
  }

  /** The chances recorded for a context go as w of how far its logits lie below the highest, in units of the
      clamped temperature. */
  lemma ChancesInProportion(e: Env, logits: seq<Logit>, peak: real)
    requires Exponential(e.weight) && IsPeak(logits, peak)
    ensures Distribution(Chances(e, logits))
    ensures InProportion(e.weight, Chances(e, logits), logits, peak, Clamped(e.config.temperature),
                         seq(|logits|, i requires 0 <= i < |logits| => logits[i].Fin?))
  {
    hide Exponential, IsPeak, Softmax, Cooled, InProportion, Distribution;
    var t := Clamped(e.config.temperature);
    var x := Cooled(logits, t);
    CooledTempers(logits, t);
    CooledPeak(logits, x, peak, t);
    SharesInProportion(e.weight, logits, x, peak, t);
    assert seq(|x|, i requires 0 <= i < |x| => x[i].Fin?)
        == seq(|logits|, i requires 0 <= i < |logits| => logits[i].Fin?);
  }

  lemma CooledPeak(l: seq<Logit>, x: seq<Logit>, peak: real, t: real)
    requires t > 0.0 && Tempers(l, x, t) && IsPeak(l, peak)
    ensures IsPeak(x, peak / t)
  {
    var k :| 0 <= k < |l| && l[k] == Fin(peak);
    Quotient(x[k].x, peak, t);
    forall j | 0 <= j < |x| && x[j].Fin? ensures x[j].x <= peak / t {
      Quotient(x[j].x, l[j].x, t);
      DividesAtMost(l[j].x, peak, t);
    }
  }

  // ----- the round -----

  /** How many numbers of the sampler n choices use. */
  function Numbers(e: Env, n: nat): nat {
    if e.config.temperature == 0.0 then 0 else n
  }

  /** The token is the sampler's choice, by its n-th number, after the history. */
  ghost predicate Chosen(e: Env, logits: seq<Logit>, history: seq<int>, n: nat, token: int)
    requires e.config.repetition > 0.0
  {
    var id := Sample(e.weight, logits, history, e.config, e.samplerRandom(n));
    token == if id.Some? then id.value else 0
  }

  /** The i-th draft token was chosen after the ones before it, and the chances of its context recorded. */
  ghost predicate Drafted(e: Env, h: seq<int>, at: At, drafted: seq<int>, probs: seq<seq<real>>, i: nat)
    requires e.config.repetition > 0.0 && i < |drafted| && i < |probs|
  {
    && Chosen(e, e.draft(h + drafted[..i]), h + drafted[..i], at.sampler + Numbers(e, i), drafted[i])
    && probs[i] == Chances(e, e.draft(h + drafted[..i]))
  }

  /** The first of the highest logits. */
  predicate FirstBest(l: seq<Logit>, i: int) {
    && 0 <= i < |l|
    && (forall j | 0 <= j < |l| :: !Above(l[j], l[i]))
    && (forall j | 0 <= j < i :: Above(l[i], l[j]))
  }

  /** The target's test of the i-th draft token, after the ones before it. */
  ghost predicate Passes(e: Env, h: seq<int>, at: At, drafted: seq<int>, probs: seq<seq<real>>, i: nat)
    requires i < |drafted| && i < |probs|
  {
    var logits := e.target(h + drafted[..i]);
    if e.greedy then FirstBest(logits, drafted[i])
    else e.decoderRandom(at.decoder + i) < Accept(Chances(e, logits), probs[i], drafted[i])
  }

  /** The token put in place of the k-th draft token. */
  ghost predicate Corrected(e: Env, h: seq<int>, at: At, drafted: seq<int>, probs: seq<seq<real>>, k: nat, token: int)
    requires e.config.repetition > 0.0 && k < |drafted| && k < |probs|
  {
    var history := h + drafted[..k];
    if e.greedy then Chosen(e, e.target(history), history, at.sampler + Numbers(e, |drafted|), token)
    else
      var p, q := Chances(e, e.target(history)), probs[k];
      var n := Min(|p|, |q|);
      token == Draw(Residual(p[..n], q[..n]), e.decoderRandom(at.decoder + k + 1))
  }

  lemma FirstBestIsArgMax(l: seq<Logit>, i: int)
    ensures FirstBest(l, i) <==> l != [] && i == ArgMax(l)
  {
    hide Above;
    if l != [] {
      forall j: nat | j < |l| ensures !Above(l[j], l[ArgMax(l)]) && (j < ArgMax(l) ==> Above(l[ArgMax(l)], l[j])) {
        ArgMaxIsFirst(l, j);
      }
    }
  }

  lemma PickIsChosen(e: Env, logits: seq<Logit>, history: seq<int>, at: At)
    requires e.config.repetition > 0.0
    ensures var (token, at1) := Pick(e, logits, history, at);
      Chosen(e, logits, history, at.sampler, token) && at1 == at.(sampler := at.sampler + Numbers(e, 1))
  {
  }

  lemma {:induction false} ProposeDrafts(e: Env, h: seq<int>, n: nat, at: At, i: nat)
    requires e.config.repetition > 0.0
    ensures var d := Propose(e, h, n, at);
      && d.at == at.(sampler := at.sampler + Numbers(e, n))
      && (i < n ==> Drafted(e, h, at, d.tokens, d.probs, i))
    decreases n
  {
    hide Sample, Chances;
    if n > 0 {
      var (token, at1) := Pick(e, e.draft(h), h, at);
      PickIsChosen(e, e.draft(h), h, at);
      ProposeDrafts(e, h + [token], n - 1, at1, Max(0, i - 1));
      var d, rest := Propose(e, h, n, at), Propose(e, h + [token], n - 1, at1);
      assert h + d.tokens[..0] == h;
      if 0 < i < n {
        assert h + d.tokens[..i] == h + [token] + rest.tokens[..i - 1];
        assert d.tokens[i] == rest.tokens[i - 1] && d.probs[i] == rest.probs[i - 1];
      }
    }
  }

  /** The round o after h, from its i-th draft token on: the drafts pass up to the k-th, which is corrected, or
      all of them pass and the sampler's choice after the whole draft is added. */
  ghost predicate Plays(e: Env, h: seq<int>, at: At, o: Outcome, drafted: seq<int>, probs: seq<seq<real>>, i: nat,
      k: nat)
    requires e.config.repetition > 0.0
  {
    && |drafted| == |probs| && i <= k <= |drafted| && |o.tokens| == k - i + 1 && o.tokens[..k - i] == drafted[i..k]
    && (forall j: nat | i <= j < k :: Passes(e, h, at, drafted, probs, j))
    && (k < |drafted| ==>
          && !Passes(e, h, at, drafted, probs, k) && Corrected(e, h, at, drafted, probs, k, o.tokens[k - i])
          && o.accepted == k - i && o.bonus.None?)
    && (k == |drafted| ==>
          && Chosen(e, e.target(h + drafted), h + drafted, at.sampler + Numbers(e, k), o.tokens[k - i])
          && o.accepted == k - i + 1 && o.bonus == Some(o.tokens[k - i]))
    && o.at.sampler == at.sampler + Numbers(e, if k == |drafted| || e.greedy then |drafted| + 1 else |drafted|)
    && o.at.decoder == at.decoder + if e.greedy then 0 else if k == |drafted| then k else k + 2
  }

  /** Where verification has come when it tests the i-th draft token. */
  function Here(e: Env, at: At, n: nat, i: nat): At {
    At(at.sampler + Numbers(e, n), at.decoder + if e.greedy then 0 else i)
  }

  lemma JudgePasses(e: Env, h: seq<int>, at: At, drafted: seq<int>, probs: seq<seq<real>>, i: nat)
    requires e.config.repetition > 0.0 && i < |drafted| == |probs|
    ensures var here := Here(e, at, |drafted|, i);
      var (put, next) := Judge(e, e.target(h + drafted[..i]), h + drafted[..i], drafted[i], probs[i], here);
      && (put.None? <==> Passes(e, h, at, drafted, probs, i))
      && (put.None? ==> next == Here(e, at, |drafted|, i + 1))
      && (put.Some? ==>
            && Corrected(e, h, at, drafted, probs, i, put.value)
            && next == At(at.sampler + Numbers(e, if e.greedy then |drafted| + 1 else |drafted|),
                          at.decoder + if e.greedy then 0 else i + 2))
  {
    hide Sample, Chances, Accept, Residual, Draw, FirstBest;
    var logits, history := e.target(h + drafted[..i]), h + drafted[..i];
    FirstBestIsArgMax(logits, drafted[i]);
    PickIsChosen(e, logits, history, Here(e, at, |drafted|, i));
  }

  lemma AllPass(e: Env, h: seq<int>, at: At, drafted: seq<int>, probs: seq<seq<real>>)
    requires e.config.repetition > 0.0 && |drafted| == |probs|
    ensures var n := |drafted|;
      Plays(e, h, at, Verify(e, h, drafted, probs, n, Here(e, at, n, n)), drafted, probs, n, n)
  {
    hide Passes, Corrected, Chosen, Pick;
    var n := |drafted|;
    assert drafted[..n] == drafted;
    PickIsChosen(e, e.target(h + drafted), h + drafted, Here(e, at, n, n));
  }

  lemma OneFails(e: Env, h: seq<int>, at: At, drafted: seq<int>, probs: seq<seq<real>>, i: nat)
    requires e.config.repetition > 0.0 && i < |drafted| == |probs|
    requires var history := h + drafted[..i];
      Judge(e, e.target(history), history, drafted[i], probs[i], Here(e, at, |drafted|, i)).0.Some?
    ensures Plays(e, h, at, Verify(e, h, drafted, probs, i, Here(e, at, |drafted|, i)), drafted, probs, i, i)
  {
    hide Passes, Corrected, Chosen, Judge, Pick;
    JudgePasses(e, h, at, drafted, probs, i);
  }

  lemma OneMore(e: Env, h: seq<int>, at: At, o: Outcome, drafted: seq<int>, probs: seq<seq<real>>, i: nat, k: nat)
    requires e.config.repetition > 0.0 && i < |drafted| == |probs|
    requires Passes(e, h, at, drafted, probs, i) && Plays(e, h, at, o, drafted, probs, i + 1, k)
    ensures Plays(e, h, at, Took(drafted[i], o), drafted, probs, i, k)
  {
    hide Passes, Corrected, Chosen;
    assert drafted[i..k] == [drafted[i]] + drafted[i + 1..k];
  }

  lemma {:induction false} VerifyPlays(e: Env, h: seq<int>, at: At, drafted: seq<int>, probs: seq<seq<real>>, i: nat)
    returns (k: nat)
    requires e.config.repetition > 0.0 && i <= |drafted| == |probs|
    ensures Plays(e, h, at, Verify(e, h, drafted, probs, i, Here(e, at, |drafted|, i)), drafted, probs, i, k)
    decreases |drafted| - i
  {
    hide Passes, Corrected, Chosen, Judge, Pick, Plays;
    var here := Here(e, at, |drafted|, i);
    var history := h + drafted[..i];
    if i == |drafted| {
      k := i;
      assert drafted[..i] == drafted;
      AllPass(e, h, at, drafted, probs);
    } else {
      JudgePasses(e, h, at, drafted, probs, i);
      var (put, next) := Judge(e, e.target(history), history, drafted[i], probs[i], here);
      if put.Some? {
        k := i;
        OneFails(e, h, at, drafted, probs, i);
      } else {
        k := VerifyPlays(e, h, at, drafted, probs, i + 1);
        OneMore(e, h, at, Verify(e, h, drafted, probs, i + 1, next), drafted, probs, i, k);
      }
    }
  }

  /** Every round: the sampler's numbers draw the draft, one after the other and each after the tokens before
      it; the decoder's numbers test it the same way; what passes is kept, and the first that does not is
      corrected by the next number, or else the sampler adds one more. */
  lemma RoundPlays(e: Env, h: seq<int>, at: At) returns (drafted: seq<int>, probs: seq<seq<real>>, k: nat)
    requires e.config.repetition > 0.0
    ensures |drafted| == |probs| == e.depth && forall i: nat | i < e.depth :: Drafted(e, h, at, drafted, probs, i)
    ensures Plays(e, h, at, Round(e, h, at), drafted, probs, 0, k)
  {
    hide Passes, Corrected, Chosen, Drafted, Verify, Propose, Plays;
    var d := Propose(e, h, e.depth, at);
    drafted, probs := d.tokens, d.probs;
    forall i: nat | i < e.depth ensures Drafted(e, h, at, drafted, probs, i) {
      ProposeDrafts(e, h, e.depth, at, i);
    }
    ProposeDrafts(e, h, e.depth, at, 0);
    k := VerifyPlays(e, h, at, drafted, probs, 0);
    assert d.at == Here(e, at, |drafted|, 0);
  }
}
