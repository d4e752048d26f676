/** Greedy speculation is plain greedy decoding, whatever the draft model proposes. */
module SpeculativeGreedy {
  import opened SamplerModel
  import opened SpeculativeModel

  predicate Greedy(e: Env) {
    e.greedy && e.config.temperature == 0.0 && e.config.repetition > 0.0
  }

  /** The token the acceptance test looks for is the one plain decoding would pick: bias,
      suppression and penalties do not move the best logit here. */
  predicate Agrees(e: Env, history: seq<int>)
    requires e.config.repetition > 0.0
  {
    e.target(history) == [] || ArgMax(e.target(history)) == Best(e, history)
  }

  lemma PickIsBest(e: Env, history: seq<int>, at: At)
    requires Greedy(e)
    ensures Pick(e, e.target(history), history, at).0 == Best(e, history)
  {
  }

  // ----- plain decoding -----

  lemma {:induction false} PlainSplits(e: Env, history: seq<int>, a: nat, b: nat)
    requires e.config.repetition > 0.0
    ensures Plain(e, history, a + b) == Plain(e, history, a) + Plain(e, history + Plain(e, history, a), b)
    decreases a
  {
    hide Best;
    if a == 0 {
      assert history + [] == history;
    } else {
      var next := history + [Best(e, history)];
      PlainSplits(e, next, a - 1, b);
      assert next + Plain(e, next, a - 1) == history + Plain(e, history, a);
    }
  }

  lemma PlainFirst(e: Env, history: seq<int>, n: nat)
    requires e.config.repetition > 0.0 && n > 0
    ensures Plain(e, history, n)[0] == Best(e, history)
  {
    hide Best;
  }

  lemma PlainAt(e: Env, history: seq<int>, n: nat, i: nat)
    requires e.config.repetition > 0.0 && i < n
    ensures Plain(e, history, n)[..i] == Plain(e, history, i)
    ensures Plain(e, history, n)[i] == Best(e, history + Plain(e, history, i))
  {
    hide Best, Plain;
    PlainSplits(e, history, i, n - i);
    PlainFirst(e, history + Plain(e, history, i), n - i);
  }

  // ----- one round -----

  /** Where the acceptance test agrees with the sampler along the next n plain tokens. */
  ghost predicate AgreesAlong(e: Env, history: seq<int>, n: nat)
    requires e.config.repetition > 0.0
  {
    forall j: nat :: j < n ==> Agrees(e, history + Plain(e, history, j))
  }

  lemma AgreesNext(e: Env, history: seq<int>, n: nat)
    requires e.config.repetition > 0.0 && n > 0 && AgreesAlong(e, history, n)
    ensures Agrees(e, history) && AgreesAlong(e, history + [Best(e, history)], n - 1)
  {
    hide Agrees, Best;
    assert history + Plain(e, history, 0) == history;
    var next := history + [Best(e, history)];
    forall j: nat | j < n - 1 ensures Agrees(e, next + Plain(e, next, j)) {
      assert next + Plain(e, next, j) == history + Plain(e, history, j + 1);
    }
  }

  lemma {:induction false} VerifyIsPlain(e: Env, tokens: seq<int>, drafted: seq<int>, probs: seq<seq<real>>, i: nat,
      at: At)
    requires Greedy(e) && i <= |drafted| == |probs|
    requires AgreesAlong(e, tokens + drafted[..i], |drafted| - i)
    ensures var o := Verify(e, tokens, drafted, probs, i, at);
      o.tokens == Plain(e, tokens + drafted[..i], |o.tokens|)
    decreases |drafted| - i
  {
    hide Best, ArgMax, Pick, AgreesAlong;
    var history := tokens + drafted[..i];
    PickIsBest(e, history, at);
    PlainOne(e, history);
    if i < |drafted| {
      AgreesNext(e, history, |drafted| - i);
      if e.target(history) != [] && drafted[i] == ArgMax(e.target(history)) {
        assert history + [drafted[i]] == tokens + drafted[..i + 1];
        VerifyIsPlain(e, tokens, drafted, probs, i + 1, at);
      }
    }
  }

  lemma PlainOne(e: Env, history: seq<int>)
    requires e.config.repetition > 0.0
    ensures Plain(e, history, 1) == [Best(e, history)]
  {
    hide Best;
    assert Plain(e, history + [Best(e, history)], 0) == [];
  }

  // ----- exactly when -----

  /** Every draft of length k is verified into a run of plain decoding. */
  ghost predicate EveryDraftIsPlain(e: Env, tokens: seq<int>, k: nat, at: At)
    requires e.config.repetition > 0.0
  {
    forall drafted: seq<int>, probs: seq<seq<real>> | |drafted| == |probs| == k ::
      var o := Verify(e, tokens, drafted, probs, 0, at);
      o.tokens == Plain(e, tokens, |o.tokens|)
  }

  /** Tokens that are the best raw logits of their contexts are accepted. */
  lemma {:induction false} Accepted(e: Env, tokens: seq<int>, drafted: seq<int>, probs: seq<seq<real>>, i: nat,
      at: At, j: nat)
    requires Greedy(e) && i <= j < |drafted| == |probs|
    requires forall m :: i <= m <= j ==>
      e.target(tokens + drafted[..m]) != [] && drafted[m] == ArgMax(e.target(tokens + drafted[..m]))
    ensures var o := Verify(e, tokens, drafted, probs, i, at);
      |o.tokens| > j - i && o.tokens[j - i] == drafted[j]
    decreases |drafted| - i
  {
    hide ArgMax, Pick;
    assert drafted[i] == ArgMax(e.target(tokens + drafted[..i]));
    if i < j {
      Accepted(e, tokens, drafted, probs, i + 1, at, j);
    }
  }

  function Zeros(n: nat): (r: seq<int>)
    ensures |r| == n
  {
    seq(n, i => 0)
  }

  /** The plain tokens up to j, then the one the test would rather have, then anything. */
  function Parting(e: Env, tokens: seq<int>, k: nat, j: nat): (drafted: seq<int>)
    requires e.config.repetition > 0.0 && j < k && e.target(tokens + Plain(e, tokens, j)) != []
    ensures |drafted| == k
  {
    Plain(e, tokens, j) + [ArgMax(e.target(tokens + Plain(e, tokens, j))) as int] + Zeros(k - j - 1)
  }

  lemma PartingIsBest(e: Env, tokens: seq<int>, k: nat, j: nat, m: nat)
    requires Greedy(e) && m <= j < k && AgreesAlong(e, tokens, j)
    requires forall i: nat :: i <= j ==> e.target(tokens + Plain(e, tokens, i)) != []
    ensures var drafted := Parting(e, tokens, k, j);
      e.target(tokens + drafted[..m]) != [] && drafted[m] == ArgMax(e.target(tokens + drafted[..m]))
  {
    hide Best, ArgMax, Plain;
    var drafted, plain := Parting(e, tokens, k, j), Plain(e, tokens, j);
    assert drafted[..m] == plain[..m];
    if m < j {
      PlainAt(e, tokens, j, m);
      assert Agrees(e, tokens + Plain(e, tokens, m));
    } else {
      assert plain[..m] == plain;
    }
  }

  /** Where the test first parts from the sampler, the draft it would rather have is accepted. */
  lemma FirstDisagreement(e: Env, tokens: seq<int>, k: nat, at: At, j: nat)
    requires Greedy(e) && j < k && AgreesAlong(e, tokens, j) && !Agrees(e, tokens + Plain(e, tokens, j))
    requires forall m: nat :: m < j ==> e.target(tokens + Plain(e, tokens, m)) != []
    ensures !EveryDraftIsPlain(e, tokens, k, at)
  {
    hide Best, ArgMax, Verify, Pick, AgreesAlong, Plain;
    var drafted := Parting(e, tokens, k, j);
    var probs: seq<seq<real>> := seq(k, i => []);
    forall m | 0 <= m <= j
      ensures e.target(tokens + drafted[..m]) != [] && drafted[m] == ArgMax(e.target(tokens + drafted[..m]))
    {
      PartingIsBest(e, tokens, k, j, m);
    }
    Accepted(e, tokens, drafted, probs, 0, at, j);
    var o := Verify(e, tokens, drafted, probs, 0, at);
    PlainAt(e, tokens, |o.tokens|, j);
    assert o.tokens[j] != Plain(e, tokens, |o.tokens|)[j];
  }

  lemma {:induction false} FirstOf(e: Env, tokens: seq<int>, k: nat) returns (j: nat)
    requires e.config.repetition > 0.0 && !AgreesAlong(e, tokens, k)
    ensures j < k && AgreesAlong(e, tokens, j) && !Agrees(e, tokens + Plain(e, tokens, j))
  {
    if AgreesAlong(e, tokens, k - 1) {
      j := k - 1;
    } else {
      j := FirstOf(e, tokens, k - 1);
    }
  }

  /** Verification with drafts of length k gives plain greedy decoding, whatever the draft,
      exactly when along the next k plain tokens the best raw logit is also the best adjusted
      one. */
  lemma GreedyExactly(e: Env, tokens: seq<int>, k: nat, at: At)
    requires Greedy(e) && forall h: seq<int> :: e.target(h) != []
    ensures EveryDraftIsPlain(e, tokens, k, at) <==> AgreesAlong(e, tokens, k)
  {
    hide Verify, Agrees, Best, Plain;
    if AgreesAlong(e, tokens, k) {
      forall drafted: seq<int>, probs: seq<seq<real>> | |drafted| == |probs| == k
        ensures var o := Verify(e, tokens, drafted, probs, 0, at); o.tokens == Plain(e, tokens, |o.tokens|)
      {
        assert tokens + drafted[..0] == tokens;
        VerifyIsPlain(e, tokens, drafted, probs, 0, at);
      }
    } else {
      var j := FirstOf(e, tokens, k);
      FirstDisagreement(e, tokens, k, at, j);
    }
  }

  /** Two tokens, the first with the better logit, the second preferred by the bias. */
  const Swayed := Env(h => [Fin(1.0), Fin(0.0)], h => [Fin(1.0), Fin(0.0)], x => x,
    Config(0.0, 0, 1.0, 0.0, 1.0, 0.0, 0.0, 0, [], map[1 := 2.0]), true, 1, n => 0.0, n => 0.0)

  /** The draft 0 is accepted where plain decoding says 1. */
  lemma BiasShows(at: At)
    ensures |Verify(Swayed, [], [0], [[]], 0, at).tokens| > 0
    ensures Verify(Swayed, [], [0], [[]], 0, at).tokens[0] == 0 && Plain(Swayed, [], 1) == [1]
  {
    var l := [Fin(1.0), Fin(0.0)];
    assert l[..1] == [Fin(1.0)];
    assert Biased(l, map[1 := 2.0]) == [Fin(1.0), Fin(2.0)];
    assert [Fin(1.0), Fin(2.0)][..1] == [Fin(1.0)];
    assert Suppressed([Fin(1.0), Fin(2.0)], []) == [Fin(1.0), Fin(2.0)];
    assert Swayed.target([]) == l;
    assert Best(Swayed, []) == 1;
  }

  // ----- whole runs -----

  predicate Unadjusted(c: Config) {
    c.bias == map[] && c.suppressed == [] && Unpenalized(c)
  }

  lemma UnadjustedAgrees(e: Env, history: seq<int>)
    requires Unadjusted(e.config) && e.config.repetition > 0.0
    ensures Agrees(e, history)
  {
    assert Biased(e.target(history), map[]) == e.target(history);
    assert Suppressed(e.target(history), []) == e.target(history);
  }

  lemma RoundIsPlain(e: Env, tokens: seq<int>, at: At)
    requires Greedy(e) && Unadjusted(e.config)
    ensures var o := Round(e, tokens, at); o.tokens == Plain(e, tokens, |o.tokens|)
  {
    hide Agrees, Verify, Propose, Plain;
    var d := Propose(e, tokens, e.depth, at);
    assert tokens + d.tokens[..0] == tokens;
    forall j: nat | j < e.depth ensures Agrees(e, tokens + Plain(e, tokens, j)) {
      UnadjustedAgrees(e, tokens + Plain(e, tokens, j));
    }
    VerifyIsPlain(e, tokens, d.tokens, d.probs, 0, d.at);
  }

  /** Any number of rounds, with any draft model and depth, is plain greedy decoding with the
      same tie-break; each round adds between one token and one more than the depth. */
  lemma {:induction false} RoundsArePlain(e: Env, tokens: seq<int>, n: nat, at: At)
    requires Greedy(e) && Unadjusted(e.config)
    ensures var r := Rounds(e, tokens, n, at);
      r == Plain(e, tokens, |r|) && n <= |r| <= n * (e.depth + 1)
    decreases n
  {
    hide Round, Plain;
    if n == 0 {
      PlainNone(e, tokens);
    } else {
      var o := Round(e, tokens, at);
      RoundIsPlain(e, tokens, at);
      RoundsArePlain(e, tokens + o.tokens, n - 1, o.at);
      var rest := Rounds(e, tokens + o.tokens, n - 1, o.at);
      PlainSplits(e, tokens, |o.tokens|, |rest|);
      assert n * (e.depth + 1) == (n - 1) * (e.depth + 1) + (e.depth + 1);
    }
  }

  lemma PlainNone(e: Env, history: seq<int>)
    requires e.config.repetition > 0.0
    ensures Plain(e, history, 0) == []
  {
  }
}
