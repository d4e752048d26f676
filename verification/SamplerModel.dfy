/** The sampling pipeline on values: adjust the logits, truncate, weigh, draw. */
module SamplerModel {
  import opened Prelude
  import opened Ranking

  datatype Logit = NegInf | Fin(x: real)

  predicate Above(a: Logit, b: Logit) {
    a.Fin? && (b.NegInf? || a.x > b.x)
  }

  ghost predicate HasFinite(l: seq<Logit>) {
    exists i :: 0 <= i < |l| && l[i].Fin?
  }

  datatype Config = Config(temperature: real, topK: int, topP: real, minP: real,
    repetition: real, frequency: real, presence: real, window: int,
    suppressed: seq<int>, bias: map<int, real>)

  /** What the configuration's own checks admit, with a positive repetition penalty. */
  predicate Sane(c: Config) {
    c.temperature >= 0.0 && 0.0 < c.topP <= 1.0 && 0.0 <= c.minP < 1.0 && c.repetition > 0.0
  }

  // ----- adjusting -----

  function Plus(a: Logit, d: real): Logit {
    if a.NegInf? then a else Fin(a.x + d)
  }

  function Biased(l: seq<Logit>, bias: map<int, real>): (r: seq<Logit>)
    ensures |r| == |l| && forall i :: 0 <= i < |l| ==> r[i] == if i in bias then Plus(l[i], bias[i]) else l[i]
  {
    seq(|l|, i requires 0 <= i < |l| => if i in bias then Plus(l[i], bias[i]) else l[i])
  }

  function Suppressed(l: seq<Logit>, ids: seq<int>): (r: seq<Logit>)
    ensures |r| == |l| && forall i :: 0 <= i < |l| ==> r[i] == if i in ids then NegInf else l[i]
  {
    seq(|l|, i requires 0 <= i < |l| => if i in ids then NegInf else l[i])
  }

  /** history[-w:], or all of it when w is zero. */
  function Window(history: seq<int>, w: int): seq<int> {
    if w == 0 then history
    else if w > 0 then history[Max(0, |history| - w)..]
    else history[Min(|history|, -w)..]
  }

  function Count(s: seq<int>, id: int): nat {
    if s == [] then 0 else Count(s[..|s| - 1], id) + if s[|s| - 1] == id then 1 else 0
  }

  /** The penalties of one token seen `count` times: the multiplicative one lowers the logit
      on either side of zero. */
  function Penalized(a: Logit, count: nat, c: Config): (r: Logit)
    requires c.repetition > 0.0
    ensures r.NegInf? <==> a.NegInf?
  {
    if a.NegInf? then a
    else
      var y := if c.repetition == 1.0 then a.x
               else if a.x > 0.0 then a.x / c.repetition
               else a.x * c.repetition;
      var z := if c.frequency != 0.0 then y - c.frequency * count as real else y;
      Fin(if c.presence != 0.0 then z - c.presence else z)
  }

  predicate Unpenalized(c: Config) {
    c.repetition == 1.0 && c.frequency == 0.0 && c.presence == 0.0
  }

  function PenalizedAll(l: seq<Logit>, history: seq<int>, c: Config): (r: seq<Logit>)
    requires c.repetition > 0.0
    ensures |r| == |l|
  {
    if Unpenalized(c) then l
    else
      var window := Window(history, c.window);
      seq(|l|, i requires 0 <= i < |l| => if Count(window, i) > 0 then Penalized(l[i], Count(window, i), c) else l[i])
  }

  /** Bias, then suppression, then penalties. */
  function Adjusted(l: seq<Logit>, history: seq<int>, c: Config): (r: seq<Logit>)
    requires c.repetition > 0.0
    ensures |r| == |l|
  {
    PenalizedAll(Suppressed(Biased(l, c.bias), c.suppressed), history, c)
  }

  // ----- greedy -----

  /** max(range(n), key=...): the first index no other index is above. */
  function ArgMax(l: seq<Logit>): (i: nat)
    requires |l| > 0
    ensures i < |l|
  {
    if |l| == 1 then 0
    else
      var best := ArgMax(l[..|l| - 1]);
      if Above(l[|l| - 1], l[best]) then |l| - 1 else best
  }

  // ----- weights -----

  /** What is used of the exponential: it is positive and strictly increasing. */
  ghost predicate Exponential(w: real -> real) {
    (forall x :: w(x) > 0.0) && forall x, y :: x < y ==> w(x) < w(y)
  }

  function Peak(l: seq<Logit>): real {
    if l == [] then 0.0 else if l[ArgMax(l)].Fin? then l[ArgMax(l)].x else 0.0
  }

  function Mass(s: seq<real>): real {
    if s == [] then 0.0 else Mass(s[..|s| - 1]) + s[|s| - 1]
  }

  function Weights(w: real -> real, l: seq<Logit>): (r: seq<real>)
    ensures |r| == |l| && forall i :: 0 <= i < |l| ==> r[i] == if l[i].Fin? then w(l[i].x - Peak(l)) else 0.0
  {
    seq(|l|, i requires 0 <= i < |l| => if l[i].Fin? then w(l[i].x - Peak(l)) else 0.0)
  }

  /** Division of every element; a zero total leaves them alone. */
  function Scaled(s: seq<real>, total: real): (r: seq<real>)
    ensures |r| == |s| && forall i :: 0 <= i < |s| ==> r[i] == if total == 0.0 then s[i] else s[i] / total
  {
    seq(|s|, i requires 0 <= i < |s| => if total == 0.0 then s[i] else s[i] / total)
  }

  function Softmax(w: real -> real, l: seq<Logit>): (r: seq<real>)
    ensures |r| == |l|
  {
    Scaled(Weights(w, l), Mass(Weights(w, l)))
  }

  // ----- truncation -----

  function Cooled(l: seq<Logit>, temperature: real): (r: seq<Logit>)
    ensures |r| == |l|
  {
    if temperature == 0.0 || temperature == 1.0 then l
    else seq(|l|, i requires 0 <= i < |l| => if l[i].Fin? then Fin(l[i].x / temperature) else NegInf)
  }

  /** Logits below the threshold go to minus infinity. */
  function CutBelow(l: seq<Logit>, threshold: Logit): (r: seq<Logit>)
    ensures |r| == |l| && forall i :: 0 <= i < |l| ==> r[i] == if Above(threshold, l[i]) then NegInf else l[i]
  {
    seq(|l|, i requires 0 <= i < |l| => if Above(threshold, l[i]) then NegInf else l[i])
  }

  /** Logits of indices not kept go to minus infinity. */
  function CutOutside(l: seq<Logit>, kept: seq<nat>): (r: seq<Logit>)
    ensures |r| == |l| && forall i :: 0 <= i < |l| ==> r[i] == if i in kept then l[i] else NegInf
  {
    seq(|l|, i requires 0 <= i < |l| => if i in kept then l[i] else NegInf)
  }

  /** Logits whose probability is under the cutoff go to minus infinity. */
  function CutLight(l: seq<Logit>, probs: seq<real>, cutoff: real): (r: seq<Logit>)
    requires |probs| == |l|
    ensures |r| == |l| && forall i :: 0 <= i < |l| ==> r[i] == if probs[i] < cutoff then NegInf else l[i]
  {
    seq(|l|, i requires 0 <= i < |l| => if probs[i] < cutoff then NegInf else l[i])
  }

  /** The logits from the highest down. */
  function InsertLogit(s: seq<Logit>, a: Logit): (r: seq<Logit>)
    ensures |r| == |s| + 1
  {
    if s == [] || Above(a, s[0]) then [a] + s else [s[0]] + InsertLogit(s[1..], a)
  }

  function Descending(l: seq<Logit>): (r: seq<Logit>)
    ensures |r| == |l|
  {
    if l == [] then [] else InsertLogit(Descending(l[..|l| - 1]), l[|l| - 1])
  }

  function TopK(l: seq<Logit>, k: int): (r: seq<Logit>)
    ensures |r| == |l|
  {
    if k <= 0 || k >= |l| then l
    else
      CutBelow(l, Descending(l)[k - 1])
  }

  /** How many elements of the order the nucleus takes: until their mass reaches p. */
  function Nucleus(probs: seq<real>, order: seq<nat>, p: real, n: nat, mass: real): (r: nat)
    requires Indices(order, |probs|) && n <= |order|
    ensures n <= r <= |order|
    decreases |order| - n
  {
    if n == |order| then n
    else if mass + probs[order[n]] >= p then n + 1
    else Nucleus(probs, order, p, n + 1, mass + probs[order[n]])
  }

  function TopP(w: real -> real, l: seq<Logit>, p: real): (r: seq<Logit>)
    ensures |r| == |l|
  {
    if p >= 1.0 then l
    else
      var probs := Softmax(w, l);
      var order := Ranked(probs);
      CutOutside(l, order[..Nucleus(probs, order, p, 0, 0.0)])
  }

  function Largest(s: seq<real>): (m: real)
    requires |s| > 0
    ensures m in s && forall i :: 0 <= i < |s| ==> s[i] <= m
  {
    if |s| == 1 then s[0]
    else
      var m := Largest(s[..|s| - 1]);
      if s[|s| - 1] > m then s[|s| - 1] else m
  }

  function MinP(w: real -> real, l: seq<Logit>, minP: real): (r: seq<Logit>)
    ensures |r| == |l|
  {
    if minP <= 0.0 || l == [] then l
    else
      var probs := Softmax(w, l);
      CutLight(l, probs, Times(minP, Largest(probs)))
  }

  function Truncated(w: real -> real, l: seq<Logit>, c: Config): (r: seq<Logit>)
    ensures |r| == |l|
  {
    MinP(w, TopP(w, TopK(Cooled(l, c.temperature), c.topK), c.topP), c.minP)
  }

  // ----- drawing -----

  /** The first index whose cumulative mass exceeds r, if any. */
  function DrawFrom(probs: seq<real>, r: real, n: nat, mass: real): Option<nat>
    requires n <= |probs|
    decreases |probs| - n
  {
    if n == |probs| then None
    else if r < mass + probs[n] then Some(n)
    else DrawFrom(probs, r, n + 1, mass + probs[n])
  }

  /** The last of the first n indices with mass, if any. */
  function LastPositive(probs: seq<real>, n: nat): Option<nat>
    requires n <= |probs|
  {
    if n == 0 then None else if probs[n - 1] > 0.0 then Some(n - 1) else LastPositive(probs, n - 1)
  }

  /** None when no index has any mass. */
  function Multinomial(probs: seq<real>, r: real): Option<nat> {
    var drawn := DrawFrom(probs, r, 0, 0.0);
    if drawn.Some? then drawn else LastPositive(probs, |probs|)
  }

  /** The sampled id; None for the errors: no logits, or no mass at all. */
  function Sample(w: real -> real, l: seq<Logit>, history: seq<int>, c: Config, r: real): Option<nat>
    requires c.repetition > 0.0
  {
    if l == [] then None
    else
      var work := Adjusted(l, history, c);
      if c.temperature == 0.0 then Some(ArgMax(work))
      else Multinomial(Softmax(w, Truncated(w, work, c)), r)
  }
}
