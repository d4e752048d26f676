/** The speculative decoder as an object: propose, verify, and its running statistics. */
module Speculative {
  import opened Prelude
  import opened SamplerModel
  import opened SpeculativeModel
  import Sampler

  class SpeculativeDecoder {
    const env: Env
    var at: At
    var rounds: nat
    var proposed: nat
    var accepted: nat
    var rejected: nat

    constructor (env: Env)
      ensures this.env == env && at == At(0, 0)
      ensures rounds == proposed == accepted == rejected == 0
    {
      this.env := env;
      at := At(0, 0);
      rounds, proposed, accepted, rejected := 0, 0, 0, 0;
    }

    method PickToken(logits: seq<Logit>, history: seq<int>) returns (token: nat)
      requires env.config.repetition > 0.0
      modifies this`at
      ensures (token, at) == Pick(env, logits, history, old(at))
    {
      hide Sample;
      var id := Sampler.SampleToken(env.weight, logits, history, env.config, env.samplerRandom(at.sampler));
      token := if id.Some? then id.value else 0;
      if env.config.temperature != 0.0 {
        at := at.(sampler := at.sampler + 1);
      }
    }

    /** Run the draft model `depth` times, each time on all tokens so far. */
    method Propose(tokenIds: seq<int>) returns (drafted: seq<int>, draftProbs: seq<seq<real>>)
      requires env.config.repetition > 0.0
      modifies this`at
      ensures Draft(drafted, draftProbs, at) == SpeculativeModel.Propose(env, tokenIds, env.depth, old(at))
    {
      hide Pick, Chances;
      drafted, draftProbs := [], [];
      var history := tokenIds;
      var i := 0;
      while i < env.depth
        invariant i <= env.depth
        invariant Extended(drafted, draftProbs, SpeculativeModel.Propose(env, history, env.depth - i, at))
               == SpeculativeModel.Propose(env, tokenIds, env.depth, old(at))
      {
        var logits := env.draft(history);
        var probs := Chances(env, logits);
        var token := PickToken(logits, history);
        drafted := drafted + [token];
        draftProbs := draftProbs + [probs];
        history := history + [token];
        i := i + 1;
      }
    }

    method Judge(logits: seq<Logit>, history: seq<int>, token: int, q: seq<real>) returns (corrected: Option<int>)
      requires env.config.repetition > 0.0
      modifies this`at
      ensures (corrected, at) == SpeculativeModel.Judge(env, logits, history, token, q, old(at))
    {
      hide Pick, Chances, ArgMax, Residual, Draw, Accept;
      if env.greedy {
        if logits != [] && token == ArgMax(logits) {
          return None;
        }
        var picked := PickToken(logits, history);
        return Some(picked);
      }
      var p := Chances(env, logits);
      var r := env.decoderRandom(at.decoder);
      at := at.(decoder := at.decoder + 1);
      if r < Accept(p, q, token) {
        return None;
      }
      var n := Min(|p|, |q|);
      var drawn := DrawToken(Residual(p[..n], q[..n]));
      corrected := Some(drawn);
    }

    /** Accept drafted tokens until one fails, correct that one, or add the bonus token. */
    method Verify(tokenIds: seq<int>, drafted: seq<int>, draftProbs: seq<seq<real>>) returns (result: Outcome)
      requires env.config.repetition > 0.0 && |drafted| == |draftProbs|
      modifies this
      ensures result == SpeculativeModel.Verify(env, tokenIds, drafted, draftProbs, 0, old(at)) && at == result.at
      ensures rounds == old(rounds) + 1 && proposed == old(proposed) + |drafted|
      ensures accepted == old(accepted) + result.accepted
      ensures rejected == old(rejected) + if result.bonus.Some? then 0 else 1
    {
      hide Pick, SpeculativeModel.Judge;
      rounds := rounds + 1;
      proposed := proposed + |drafted|;
      var tokens: seq<int> := [];
      assert drafted[..0] == [];
      for i := 0 to |drafted|
        invariant tokens == drafted[..i] && accepted == old(accepted) + i
        invariant rounds == old(rounds) + 1 && proposed == old(proposed) + |drafted| && rejected == old(rejected)
        invariant TookAll(tokens, SpeculativeModel.Verify(env, tokenIds, drafted, draftProbs, i, at))
               == SpeculativeModel.Verify(env, tokenIds, drafted, draftProbs, 0, old(at))
      {
        var token := drafted[i];
        var logits := env.target(tokenIds + drafted[..i]);
        TookAllNext(tokens, token, SpeculativeModel.Verify(env, tokenIds, drafted, draftProbs, i, at));
        var corrected := Judge(logits, tokenIds + tokens, token, draftProbs[i]);
        if corrected.Some? {
          rejected := rejected + 1;
          return Outcome(tokens + [corrected.value], i, None, at);
        }
        tokens := tokens + [token];
        accepted := accepted + 1;
      }
      assert drafted[..|drafted|] == drafted;
      var bonus := PickToken(env.target(tokenIds + drafted), tokenIds + tokens);
      accepted := accepted + 1;
      result := Outcome(tokens + [bonus], |drafted| + 1, Some(bonus), at);
    }

    /** The first index whose cumulative probability exceeds the number drawn. */
    method DrawToken(probs: seq<real>) returns (token: int)
      modifies this`at
      ensures token == Draw(probs, env.decoderRandom(old(at).decoder))
      ensures at == old(at).(decoder := old(at).decoder + 1)
    {
      var r := env.decoderRandom(at.decoder);
      at := at.(decoder := at.decoder + 1);
      var acc := 0.0;
      for i := 0 to |probs|
        invariant DrawFrom(probs, r, i, acc) == DrawFrom(probs, r, 0, 0.0)
      {
        acc := acc + probs[i];
        if r < acc {
          return i;
        }
      }
      token := |probs| - 1;
    }

    method Step(tokenIds: seq<int>) returns (result: Outcome)
      requires env.config.repetition > 0.0
      modifies this
      ensures result == Round(env, tokenIds, old(at)) && at == result.at
      ensures rounds == old(rounds) + 1
      ensures accepted == old(accepted) + result.accepted
    {
      hide SpeculativeModel.Verify, SpeculativeModel.Propose;
      var drafted, draftProbs := Propose(tokenIds);
      result := Verify(tokenIds, drafted, draftProbs);
    }
  }

  /** A draft continued after tokens already drafted. */
  function Extended(tokens: seq<int>, probs: seq<seq<real>>, rest: Draft): Draft {
    Draft(tokens + rest.tokens, probs + rest.probs, rest.at)
  }

  /** An outcome after tokens already accepted. */
  function TookAll(tokens: seq<int>, rest: Outcome): Outcome {
    Outcome(tokens + rest.tokens, |tokens| + rest.accepted, rest.bonus, rest.at)
  }

  lemma TookAllNext(tokens: seq<int>, token: int, rest: Outcome)
    ensures forall more: Outcome :: rest == Took(token, more) ==>
      TookAll(tokens, rest) == TookAll(tokens + [token], more)
  {
    forall more: Outcome | rest == Took(token, more)
      ensures TookAll(tokens, rest) == TookAll(tokens + [token], more)
    {
      assert tokens + ([token] + more.tokens) == tokens + [token] + more.tokens;
    }
  }
}
