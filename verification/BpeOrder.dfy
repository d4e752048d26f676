/** The merge loop by the words it goes through: each comes from the one before it by joining, left to right,
    the adjacent pair that stands lowest in the merge table. */
module BpeOrder {
  import opened Prelude
  import opened BpeModel
  import opened BpeProofs

  /** The pair's place in the merge table; when it has several, the last one. */
  predicate RankedAt(merges: seq<Pair>, p: Pair, r: nat) {
    r < |merges| && merges[r] == p && forall k | r < k < |merges| :: merges[k] != p
  }

  predicate AdjacentAt(word: seq<string>, p: Pair, i: nat) {
    i + 1 < |word| && word[i] == p.0 && word[i + 1] == p.1
  }

  predicate Adjacent(word: seq<string>, p: Pair) {
    exists i: nat | i < |word| :: AdjacentAt(word, p, i)
  }

  /** The entry r of the table is an adjacent pair of the word, and no adjacent pair stands lower. */
  ghost predicate Lowest(word: seq<string>, merges: seq<Pair>, r: nat) {
    && r < |merges| && RankedAt(merges, merges[r], r) && Adjacent(word, merges[r])
    && forall p, q: nat | Adjacent(word, p) && RankedAt(merges, p, q) :: r <= q
  }

  ghost predicate NonePaired(word: seq<string>, merges: seq<Pair>) {
    forall p, q: nat :: !(Adjacent(word, p) && RankedAt(merges, p, q))
  }

  /** Piece k of the new word covers the old one from at[k] to at[k + 1]: both sides of the pair where they
      stand there, and a single piece where they do not. */
  predicate Covers(word: seq<string>, p: Pair, next: seq<string>, at: seq<nat>, k: nat)
    requires k < |next| && |at| == |next| + 1
  {
    && at[k] < |word|
    && if AdjacentAt(word, p, at[k]) then at[k + 1] == at[k] + 2 && next[k] == p.0 + p.1
       else at[k + 1] == at[k] + 1 && next[k] == word[at[k]]
  }

  predicate Joined(word: seq<string>, p: Pair, next: seq<string>, at: seq<nat>) {
    && |at| == |next| + 1 && at[0] == 0 && at[|next|] == |word|
    && forall k: nat | k < |next| :: Covers(word, p, next, at, k)
  }

  /** One turn: the lowest pair is joined at every place, left to right, without overlaps. */
  ghost predicate Turn(word: seq<string>, merges: seq<Pair>, next: seq<string>) {
    exists r: nat, at: seq<nat> :: Lowest(word, merges, r) && Joined(word, merges[r], next, at)
  }

  /** From the letters of the token, turn by turn, to a word in which no adjacent pair is in the table. */
  ghost predicate Reaches(token: string, merges: seq<Pair>, words: seq<seq<string>>, result: seq<string>) {
    && words != [] && words[|words| - 1] == result && NonePaired(result, merges)
    && |words[0]| == |token| && (forall i | 0 <= i < |token| :: words[0][i] == [token[i]])
    && forall k: nat | k + 1 < |words| :: Turn(words[k], merges, words[k + 1])
  }

  // ----- the loop takes these turns -----

  lemma {:induction false} RankIsPlace(merges: seq<Pair>, p: Pair)
    ensures var r := Rank(merges, p);
      if r >= 0 then RankedAt(merges, p, r) else forall k | 0 <= k < |merges| :: merges[k] != p
  {
    if merges != [] && merges[|merges| - 1] != p {
      RankIsPlace(merges[..|merges| - 1], p);
    }
  }

  lemma PlaceIsRank(merges: seq<Pair>, p: Pair, q: nat)
    requires RankedAt(merges, p, q)
    ensures Rank(merges, p) == q
  {
    hide Rank;
    RankIsPlace(merges, p);
  }

  lemma BestIsLowest(word: seq<string>, merges: seq<Pair>)
    ensures var best := Best(word, merges, Max(0, |word| - 1));
      if best.Some? then Rank(merges, best.value) >= 0 && Lowest(word, merges, Rank(merges, best.value))
      else NonePaired(word, merges)
  {
    hide Best, Rank;
    var n := Max(0, |word| - 1);
    var best := Best(word, merges, n);
    forall p, q: nat | Adjacent(word, p) && RankedAt(merges, p, q)
      ensures best.Some? && Rank(merges, best.value) <= q
    {
      var i: nat :| i < |word| && AdjacentAt(word, p, i);
      assert PairOf(word, i) == p;
      PlaceIsRank(merges, p, q);
      BestIsLeast(word, merges, n, i);
    }
    if best.Some? {
      RankIsPlace(merges, best.value);
      var i :| 0 <= i < n && PairOf(word, i) == best.value;
      assert AdjacentAt(word, best.value, i);
    }
  }

  lemma {:induction false} JoinIsJoined(word: seq<string>, p: Pair, i: nat) returns (at: seq<nat>)
    requires i <= |word|
    ensures var next := Join(word, p, i);
      && |at| == |next| + 1 && at[0] == i && at[|next|] == |word|
      && forall k: nat | k < |next| :: Covers(word, p, next, at, k)
    decreases |word| - i
  {
    if i == |word| {
      at := [i];
    } else {
      var step := if AdjacentAt(word, p, i) then 2 else 1;
      var rest := JoinIsJoined(word, p, i + step);
      at := [i] + rest;
      var next, tail := Join(word, p, i), Join(word, p, i + step);
      forall k: nat | k < |next| ensures Covers(word, p, next, at, k) {
        if k > 0 {
          assert Covers(word, p, tail, rest, k - 1);
        }
      }
    }
  }

  lemma {:induction false} MergeTakesTurns(word: seq<string>, merges: seq<Pair>) returns (words: seq<seq<string>>)
    ensures words != [] && words[0] == word && words[|words| - 1] == Merge(word, merges)
    ensures NonePaired(Merge(word, merges), merges)
    ensures forall k: nat | k + 1 < |words| :: Turn(words[k], merges, words[k + 1])
    decreases |word|
  {
    hide Best, Join, Rank, Lowest, NonePaired;
    var best := Best(word, merges, Max(0, |word| - 1));
    BestIsLowest(word, merges);
    words := [word];
    if best.Some? {
      var next := Join(word, best.value, 0);
      var at := JoinIsJoined(word, best.value, 0);
      assert Joined(word, merges[Rank(merges, best.value)], next, at);
      var rest := MergeTakesTurns(next, merges);
      words := [word] + rest;
      forall k: nat | k + 1 < |words| ensures Turn(words[k], merges, words[k + 1]) {
        if k > 0 {
          assert Turn(rest[k - 1], merges, rest[k]);
        }
      }
    }
  }

  /** The merge loop always joins the pair that stands lowest in the table. */
  lemma MergesInOrder(token: string, merges: seq<Pair>) returns (words: seq<seq<string>>)
    ensures Reaches(token, merges, words, Bpe(token, merges))
  {
    hide Merge, Turn, NonePaired;
    words := MergeTakesTurns(Letters(token), merges);
  }

  // ----- and no others are possible -----

  lemma {:induction false} JoinedAlike(word: seq<string>, p: Pair, a: seq<string>, at: seq<nat>, b: seq<string>,
      bt: seq<nat>, k: nat)
    requires Joined(word, p, a, at) && Joined(word, p, b, bt) && k <= |a| && k <= |b|
    ensures at[k] == bt[k] && a[..k] == b[..k]
  {
    if k > 0 {
      JoinedAlike(word, p, a, at, b, bt, k - 1);
      assert Covers(word, p, a, at, k - 1) && Covers(word, p, b, bt, k - 1);
      assert a[..k] == a[..k - 1] + [a[k - 1]] && b[..k] == b[..k - 1] + [b[k - 1]];
    }
  }

  lemma JoinedOnce(word: seq<string>, p: Pair, a: seq<string>, at: seq<nat>, b: seq<string>, bt: seq<nat>)
    requires Joined(word, p, a, at) && Joined(word, p, b, bt)
    ensures a == b
  {
    var n := Min(|a|, |b|);
    JoinedAlike(word, p, a, at, b, bt, n);
    assert n < |a| ==> Covers(word, p, a, at, n);
    assert n < |b| ==> Covers(word, p, b, bt, n);
    assert a[..n] == a && b[..n] == b;
  }

  lemma TurnIsOne(word: seq<string>, merges: seq<Pair>, a: seq<string>, b: seq<string>)
    requires Turn(word, merges, a) && Turn(word, merges, b)
    ensures a == b
  {
    var r: nat, at: seq<nat> :| Lowest(word, merges, r) && Joined(word, merges[r], a, at);
    var q: nat, bt: seq<nat> :| Lowest(word, merges, q) && Joined(word, merges[q], b, bt);
    assert r == q;
    JoinedOnce(word, merges[r], a, at, b, bt);
  }

  lemma NoTurnAtTheEnd(word: seq<string>, merges: seq<Pair>, next: seq<string>)
    requires Turn(word, merges, next)
    ensures !NonePaired(word, merges)
  {
    var r: nat, at: seq<nat> :| Lowest(word, merges, r) && Joined(word, merges[r], next, at);
    assert Adjacent(word, merges[r]) && RankedAt(merges, merges[r], r);
  }

  lemma {:induction false} ChainsAgree(merges: seq<Pair>, a: seq<seq<string>>, b: seq<seq<string>>)
    requires a != [] && b != [] && a[0] == b[0]
    requires NonePaired(a[|a| - 1], merges) && NonePaired(b[|b| - 1], merges)
    requires forall k: nat | k + 1 < |a| :: Turn(a[k], merges, a[k + 1])
    requires forall k: nat | k + 1 < |b| :: Turn(b[k], merges, b[k + 1])
    ensures a == b
    decreases |a|
  {
    hide Turn, NonePaired;
    if |a| > 1 {
      NoTurnAtTheEnd(a[0], merges, a[1]);
      assert |b| > 1;
      TurnIsOne(a[0], merges, a[1], b[1]);
      forall k: nat | k + 1 < |a[1..]| ensures Turn(a[1..][k], merges, a[1..][k + 1]) {
        assert Turn(a[k + 1], merges, a[k + 2]);
      }
      forall k: nat | k + 1 < |b[1..]| ensures Turn(b[1..][k], merges, b[1..][k + 1]) {
        assert Turn(b[k + 1], merges, b[k + 2]);
      }
      ChainsAgree(merges, a[1..], b[1..]);
      assert a == [a[0]] + a[1..] && b == [b[0]] + b[1..];
    } else if |b| > 1 {
      NoTurnAtTheEnd(b[0], merges, b[1]);
    }
  }

  /** A word is the encoding of a token exactly when it is reached from its letters by these turns. */
  lemma OnlyResult(token: string, merges: seq<Pair>, result: seq<string>)
    ensures (exists words :: Reaches(token, merges, words, result)) <==> result == Bpe(token, merges)
  {
    hide Turn, NonePaired, Bpe;
    var words := MergesInOrder(token, merges);
    if other :| Reaches(token, merges, other, result) {
      assert words[0] == other[0];
      ChainsAgree(merges, words, other);
    }
  }
}
