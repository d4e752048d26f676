/** Routing tokens to experts: each token takes its best experts that still have room. */
module MoeModel {
  import opened Prelude
  import opened Ranking
  import opened SamplerModel

  datatype DropPolicy = Rightmost | Random | Never

  datatype MoeConfig = MoeConfig(experts: nat, perToken: nat, factor: real, policy: DropPolicy, normalize: bool)

  /** What the router's constructor admits; a router without experts cannot divide by their number. */
  predicate Legal(c: MoeConfig) {
    c.perToken <= c.experts && c.experts > 0
  }

  function Ceiling(x: real): int {
    -(-x).Floor
  }

  /** How many tokens of a batch each expert takes. */
  function Capacity(c: MoeConfig, tokens: nat): int
    requires c.experts > 0
  {
    if c.policy.Never? then tokens
    else Max(1, Ceiling((tokens * c.perToken) as real / c.experts as real * c.factor))
  }

  function Logits(row: seq<real>): (l: seq<Logit>)
    ensures |l| == |row| && forall i :: 0 <= i < |l| ==> l[i] == Fin(row[i])
  {
    seq(|row|, i requires 0 <= i < |row| => Fin(row[i]))
  }

  function Probs(w: real -> real, row: seq<real>): (p: seq<real>)
    ensures |p| == |row|
  {
    Softmax(w, Logits(row))
  }

  /** Going down the ranking, the experts with room, until there are enough. */
  function Choose(ranked: seq<nat>, counts: seq<nat>, cap: int, want: nat): (chosen: seq<nat>)
    requires Indices(ranked, |counts|)
    ensures |chosen| <= want && Indices(chosen, |counts|)
  {
    if want == 0 || ranked == [] then []
    else if counts[ranked[0]] >= cap then Choose(ranked[1..], counts, cap, want)
    else [ranked[0]] + Choose(ranked[1..], counts, cap, want - 1)
  }

  /** The counts with one more token for each of the experts. */
  function Counted(counts: seq<nat>, chosen: seq<nat>): (r: seq<nat>)
    requires Indices(chosen, |counts|)
    ensures |r| == |counts|
    decreases |chosen|
  {
    if chosen == [] then counts
    else Counted(counts[chosen[0] := counts[chosen[0]] + 1], chosen[1..])
  }

  function WeightsOf(probs: seq<real>, chosen: seq<nat>, normalize: bool): (r: seq<real>)
    requires Indices(chosen, |probs|)
    ensures |r| == |chosen|
  {
    var raw := seq(|chosen|, i requires 0 <= i < |chosen| => probs[chosen[i]]);
    if normalize && chosen != [] then Scaled(raw, Mass(raw)) else raw
  }

  datatype Decision = Decision(expertIds: seq<seq<nat>>, weights: seq<seq<real>>, dropped: seq<nat>, load: seq<nat>)

  function Zeros(n: nat): (r: seq<nat>)
    ensures |r| == n && forall i :: 0 <= i < n ==> r[i] == 0
  {
    seq(n, i => 0)
  }

  /** The first n rows have a logit for every expert. */
  predicate Square(c: MoeConfig, rows: seq<seq<real>>, n: nat)
    requires n <= |rows|
  {
    forall i :: 0 <= i < n ==> |rows[i]| == c.experts
  }

  /** The experts of token t, when `counts` tokens have gone to each expert before. */
  function Chosen(w: real -> real, c: MoeConfig, row: seq<real>, counts: seq<nat>, cap: int): (chosen: seq<nat>)
    requires |row| == |counts|
    ensures |chosen| <= c.perToken && Indices(chosen, |counts|)
  {
    Choose(Ranked(Probs(w, row)), counts, cap, c.perToken)
  }

  /** The decision for the first n tokens. */
  function RouteUpTo(w: real -> real, c: MoeConfig, rows: seq<seq<real>>, cap: int, n: nat): (d: Decision)
    requires n <= |rows| && Square(c, rows, n)
    ensures |d.expertIds| == |d.weights| == n && |d.load| == c.experts
  {
    if n == 0 then Decision([], [], [], Zeros(c.experts))
    else
      var d := RouteUpTo(w, c, rows, cap, n - 1);
      var chosen := Chosen(w, c, rows[n - 1], d.load, cap);
      Decision(d.expertIds + [chosen],
        d.weights + [WeightsOf(Probs(w, rows[n - 1]), chosen, c.normalize)],
        if |chosen| < c.perToken then d.dropped + [n - 1] else d.dropped,
        Counted(d.load, chosen))
  }

  /** The first row of the wrong length, if any. */
  function Misfit(c: MoeConfig, rows: seq<seq<real>>, i: nat): Option<nat>
    requires i <= |rows|
    decreases |rows| - i
  {
    if i == |rows| then None else if |rows[i]| != c.experts then Some(i) else Misfit(c, rows, i + 1)
  }

  datatype Routed = Routed(decision: Decision) | WrongLength(token: nat)

  lemma {:induction false} MisfitIs(c: MoeConfig, rows: seq<seq<real>>, i: nat)
    requires i <= |rows| && forall j :: 0 <= j < i ==> |rows[j]| == c.experts
    ensures Misfit(c, rows, i).None? <==> Square(c, rows, |rows|)
    decreases |rows| - i
  {
    if i < |rows| && |rows[i]| == c.experts {
      MisfitIs(c, rows, i + 1);
    }
  }

  function Route(w: real -> real, c: MoeConfig, rows: seq<seq<real>>): Routed
    requires Legal(c)
  {
    MisfitIs(c, rows, 0);
    if Misfit(c, rows, 0).Some? then WrongLength(Misfit(c, rows, 0).value)
    else Routed(RouteUpTo(w, c, rows, Capacity(c, |rows|), |rows|))
  }
}
