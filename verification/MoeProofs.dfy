/** Which experts a token gets, what the loads add up to, and when no token is dropped. */
module MoeProofs {
  import opened Prelude
  import opened Ranking
  import opened SamplerModel
  import opened SamplerProofs
  import opened MoeModel

  // ----- one token -----

  /** The chosen experts come in ranking order, each with room; an expert with room is passed
      over only when enough better ones were found. */
  lemma {:induction false} ChooseIs(ranked: seq<nat>, counts: seq<nat>, cap: int, want: nat)
    requires Indices(ranked, |counts|) && NoDup(ranked)
    ensures var chosen := Choose(ranked, counts, cap, want);
      && NoDup(chosen)
      && (forall i :: 0 <= i < |chosen| ==> chosen[i] in ranked && counts[chosen[i]] < cap)
      && (|chosen| < want ==> forall k :: 0 <= k < |ranked| && counts[ranked[k]] < cap ==> ranked[k] in chosen)
  {
    if want > 0 && ranked != [] {
      var rest := ranked[1..];
      assert ranked == [ranked[0]] + rest;
      assert forall k :: 0 <= k < |rest| ==> rest[k] != ranked[0];
      if counts[ranked[0]] >= cap {
        ChooseIs(rest, counts, cap, want);
        forall k | 0 <= k < |ranked| && counts[ranked[k]] < cap ensures k > 0 && ranked[k] == rest[k - 1] {
        }
      } else {
        ChooseIs(rest, counts, cap, want - 1);
        var chosen := Choose(rest, counts, cap, want - 1);
        assert forall i :: 0 <= i < |chosen| ==> chosen[i] != ranked[0];
        forall k | 0 < k < |ranked| ensures ranked[k] == rest[k - 1] {
        }
      }
    }
  }

  /** Everything with room that ranks above a chosen expert is chosen too. */
  lemma {:induction false} ChooseIsBest(ranked: seq<nat>, counts: seq<nat>, cap: int, want: nat, i: nat, k: nat)
    requires Indices(ranked, |counts|) && NoDup(ranked) && i < k < |ranked|
    requires counts[ranked[i]] < cap && ranked[k] in Choose(ranked, counts, cap, want)
    ensures ranked[i] in Choose(ranked, counts, cap, want)
  {
    var rest := ranked[1..];
    assert rest[k - 1] == ranked[k];
    if i > 0 {
      assert rest[i - 1] == ranked[i];
      if counts[ranked[0]] >= cap {
        ChooseIsBest(rest, counts, cap, want, i - 1, k - 1);
      } else {
        ChooseIsBest(rest, counts, cap, want - 1, i - 1, k - 1);
      }
    }
  }

  /** The router prefers e to f: a higher logit, or the same at a lower index. */
  predicate Beats(row: seq<real>, e: nat, f: nat) {
    e < |row| && f < |row| && (row[e] > row[f] || (row[e] == row[f] && e < f))
  }

  /** A token gets distinct experts below capacity, as many as asked for unless every other
      expert is full, and none of them
      while an expert with room that beats it is left. */
  lemma TokenGetsBest(w: real -> real, c: MoeConfig, row: seq<real>, counts: seq<nat>, cap: int)
    requires Exponential(w) && |row| == |counts| > 0
    ensures var chosen := Chosen(w, c, row, counts, cap);
      && NoDup(chosen)
      && (forall i :: 0 <= i < |chosen| ==> counts[chosen[i]] < cap)
      && (|chosen| < c.perToken ==> forall e: nat :: e < |counts| && counts[e] < cap ==> e in chosen)
      && (forall e: nat, f: nat :: f in chosen && Beats(row, e, f) && counts[e] < cap ==> e in chosen)
  {
    hide Choose, Probs, Exponential;
    var probs := Probs(w, row);
    var ranked := Ranked(probs);
    var chosen := Chosen(w, c, row, counts, cap);
    RankedSorts(probs);
    ChooseIs(ranked, counts, cap, c.perToken);
    forall e: nat | e < |counts| && counts[e] < cap && |chosen| < c.perToken ensures e in chosen {
      var k := Place(probs, e);
    }
    forall e: nat, f: nat | f in chosen && Beats(row, e, f) && counts[e] < cap ensures e in chosen
    {
      var i := Place(probs, e);
      var k := Place(probs, f);
      ProbsFollow(w, row, e, f);
      SortedAt(probs, ranked, i, k);
      SortedAt(probs, ranked, k, i);
      if i != k {
        ChooseIsBest(ranked, counts, cap, c.perToken, i, k);
      }
    }
  }

  /** Where an index stands in the ranking. */
  lemma Place(keys: seq<real>, e: nat) returns (k: nat)
    requires e < |keys|
    ensures k < |Ranked(keys)| && Ranked(keys)[k] == e
  {
    assert e in Ranked(keys);
    k :| k < |Ranked(keys)| && Ranked(keys)[k] == e;
  }

  lemma ProbsFollow(w: real -> real, row: seq<real>, e: nat, f: nat)
    requires Exponential(w) && e < |row| && f < |row|
    ensures Probs(w, row)[e] > Probs(w, row)[f] <==> row[e] > row[f]
    ensures row[e] == row[f] ==> Probs(w, row)[e] == Probs(w, row)[f]
  {
    assert Logits(row)[e].Fin?;
    SoftmaxAt(w, Logits(row), f, e);
    SoftmaxAt(w, Logits(row), e, f);
  }

  // ----- loads -----

  lemma {:induction false} CountedAt(counts: seq<nat>, chosen: seq<nat>, e: nat)
    requires Indices(chosen, |counts|) && NoDup(chosen) && e < |counts|
    ensures Counted(counts, chosen)[e] == counts[e] + if e in chosen then 1 else 0
    decreases |chosen|
  {
    if chosen != [] {
      var x := chosen[0];
      CountedAt(counts[x := counts[x] + 1], chosen[1..], e);
      assert chosen == [x] + chosen[1..];
    }
  }

  function Sum(s: seq<nat>): nat {
    if s == [] then 0 else Sum(s[..|s| - 1]) + s[|s| - 1]
  }

  lemma {:induction false} SumBump(s: seq<nat>, i: nat)
    requires i < |s|
    ensures Sum(s[i := s[i] + 1]) == Sum(s) + 1
  {
    var t := s[i := s[i] + 1];
    if i < |s| - 1 {
      SumBump(s[..|s| - 1], i);
      assert t[..|s| - 1] == s[..|s| - 1][i := s[i] + 1];
    } else {
      assert t[..|s| - 1] == s[..|s| - 1];
    }
  }

  lemma {:induction false} SumCounted(counts: seq<nat>, chosen: seq<nat>)
    requires Indices(chosen, |counts|)
    ensures Sum(Counted(counts, chosen)) == Sum(counts) + |chosen|
    decreases |chosen|
  {
    if chosen != [] {
      SumBump(counts, chosen[0]);
      SumCounted(counts[chosen[0] := counts[chosen[0]] + 1], chosen[1..]);
    }
  }

  lemma {:induction false} SumZeros(n: nat)
    ensures Sum(Zeros(n)) == 0
  {
    if n > 0 {
      assert Zeros(n)[..n - 1] == Zeros(n - 1);
      SumZeros(n - 1);
    }
  }

  /** How many of the tokens were assigned to expert e. */
  function Assigned(ids: seq<seq<nat>>, e: nat): nat {
    if ids == [] then 0 else Assigned(ids[..|ids| - 1], e) + if e in ids[|ids| - 1] then 1 else 0
  }

  /** All assignments. */
  function Assignments(ids: seq<seq<nat>>): nat {
    if ids == [] then 0 else Assignments(ids[..|ids| - 1]) + |ids[|ids| - 1]|
  }

  /** Loads are what the assignments say, add up to all of them, and stay within capacity. */
  ghost predicate LoadsOk(c: MoeConfig, d: Decision, cap: int, n: nat) {
    && |d.load| == c.experts
    && (forall e :: 0 <= e < c.experts ==> d.load[e] == Assigned(d.expertIds, e) && d.load[e] <= cap && d.load[e] <= n)
    && Sum(d.load) == Assignments(d.expertIds) <= Product(c.perToken, n)
  }

  lemma LoadsNext(c: MoeConfig, d: Decision, d': Decision, chosen: seq<nat>, cap: int, n: nat)
    requires n > 0 && LoadsOk(c, d, cap, n - 1) && |chosen| <= c.perToken && NoDup(chosen) && Indices(chosen, |d.load|)
    requires forall i :: 0 <= i < |chosen| ==> d.load[chosen[i]] < cap
    requires d'.expertIds == d.expertIds + [chosen] && d'.load == Counted(d.load, chosen)
    ensures LoadsOk(c, d', cap, n)
  {
    hide Product, Counted;
    SumCounted(d.load, chosen);
    ProductNext(c.perToken, n - 1);
    assert d'.expertIds[..|d.expertIds|] == d.expertIds;
    forall e | 0 <= e < c.experts ensures d'.load[e] == d.load[e] + if e in chosen then 1 else 0 {
      CountedAt(d.load, chosen, e);
    }
  }

  lemma {:induction false} LoadsKeep(w: real -> real, c: MoeConfig, rows: seq<seq<real>>, cap: int, n: nat)
    requires Exponential(w) && n <= |rows| && Square(c, rows, n) && c.experts > 0 && cap >= 0
    ensures LoadsOk(c, RouteUpTo(w, c, rows, cap, n), cap, n)
  {
    hide Exponential, Chosen, WeightsOf, Counted, Product, LoadsOk;
    if n == 0 {
      LoadsStart(c, cap);
    } else {
      LoadsKeep(w, c, rows, cap, n - 1);
      RouteNext(w, c, rows, cap, n);
      var d := RouteUpTo(w, c, rows, cap, n - 1);
      TokenGetsBest(w, c, rows[n - 1], d.load, cap);
      LoadsNext(c, d, RouteUpTo(w, c, rows, cap, n), Chosen(w, c, rows[n - 1], d.load, cap), cap, n);
    }
  }

  lemma LoadsStart(c: MoeConfig, cap: int)
    requires cap >= 0
    ensures LoadsOk(c, Decision([], [], [], Zeros(c.experts)), cap, 0)
  {
    SumZeros(c.experts);
  }

  // ----- weights -----

  lemma {:induction false} PositiveMass(s: seq<real>)
    requires |s| > 0 && forall i :: 0 <= i < |s| ==> s[i] > 0.0
    ensures Mass(s) > 0.0
  {
    if |s| > 1 {
      PositiveMass(s[..|s| - 1]);
    }
  }

  /** Normalized weights of a token that got any expert are positive and sum to one. */
  lemma WeightsSumToOne(w: real -> real, row: seq<real>, chosen: seq<nat>)
    requires Exponential(w) && Indices(chosen, |row|) && chosen != []
    ensures var r := WeightsOf(Probs(w, row), chosen, true);
      Mass(r) == 1.0 && forall i :: 0 <= i < |r| ==> r[i] > 0.0
  {
    hide Exponential, Probs, Mass;
    var probs := Probs(w, row);
    var raw := seq(|chosen|, i requires 0 <= i < |chosen| => probs[chosen[i]]);
    forall i | 0 <= i < |raw| ensures raw[i] > 0.0 {
      ProbPositive(w, row, chosen[i]);
    }
    PositiveMass(raw);
    MassScales(raw, Mass(raw));
    Itself(Mass(raw));
    forall i | 0 <= i < |raw| ensures Scaled(raw, Mass(raw))[i] > 0.0 {
      Divides(raw[i], 0.0, Mass(raw));
    }
  }

  lemma ProbPositive(w: real -> real, row: seq<real>, e: nat)
    requires Exponential(w) && e < |row|
    ensures Probs(w, row)[e] > 0.0
  {
    assert Logits(row)[e].Fin?;
    SoftmaxAt(w, Logits(row), e, e);
  }

  // ----- dropping -----

  lemma RouteNothing(w: real -> real, c: MoeConfig, rows: seq<seq<real>>, cap: int)
    ensures RouteUpTo(w, c, rows, cap, 0) == Decision([], [], [], Zeros(c.experts))
  {
  }

  lemma RouteNext(w: real -> real, c: MoeConfig, rows: seq<seq<real>>, cap: int, n: nat)
    requires 0 < n <= |rows| && Square(c, rows, n)
    ensures var d, d' := RouteUpTo(w, c, rows, cap, n - 1), RouteUpTo(w, c, rows, cap, n);
      var chosen := Chosen(w, c, rows[n - 1], d.load, cap);
      && d'.expertIds == d.expertIds + [chosen] && d'.load == Counted(d.load, chosen)
      && d'.dropped == if |chosen| < c.perToken then d.dropped + [n - 1] else d.dropped
  {
    hide Chosen, WeightsOf, Counted;
  }

  /** A token is listed as dropped exactly when it got fewer experts than it should. */
  lemma {:induction false} DroppedAre(w: real -> real, c: MoeConfig, rows: seq<seq<real>>, cap: int, n: nat)
    requires n <= |rows| && Square(c, rows, n)
    ensures var d := RouteUpTo(w, c, rows, cap, n);
      forall t: nat :: t in d.dropped <==> t < n && |d.expertIds[t]| < c.perToken
  {
    hide Chosen, WeightsOf, Counted, RouteUpTo;
    if n == 0 {
      RouteNothing(w, c, rows, cap);
    } else {
      DroppedAre(w, c, rows, cap, n - 1);
      RouteNext(w, c, rows, cap, n);
    }
  }

  /** The experts that still have room, among the first n. */
  function Roomy(counts: seq<nat>, cap: int, n: nat): (r: set<nat>)
    requires n <= |counts|
    ensures forall e: nat :: e in r <==> e < n && counts[e] < cap
  {
    if n == 0 then {} else Roomy(counts, cap, n - 1) + if counts[n - 1] < cap then {n - 1} else {}
  }

  lemma RoomyNext(counts: seq<nat>, cap: nat, n: nat)
    requires 0 < n <= |counts|
    ensures |Roomy(counts, cap, n)| == |Roomy(counts, cap, n - 1)| + if counts[n - 1] < cap then 1 else 0
  {
  }

  lemma SumNext(counts: seq<nat>, n: nat)
    requires 0 < n <= |counts|
    ensures Sum(counts[..n]) == Sum(counts[..n - 1]) + counts[n - 1]
  {
    assert counts[..n][..n - 1] == counts[..n - 1];
  }

  /** Full experts account for the load. */
  lemma {:induction false} FullLoad(counts: seq<nat>, cap: nat, n: nat)
    requires n <= |counts|
    ensures |Roomy(counts, cap, n)| <= n
    ensures Sum(counts[..n]) >= Product(cap, n - |Roomy(counts, cap, n)|)
  {
    hide Product, Roomy, Sum;
    if n == 0 {
      NothingFull(counts, cap);
    } else {
      FullLoad(counts, cap, n - 1);
      RoomyNext(counts, cap, n);
      SumNext(counts, n);
      ProductNext(cap, n - 1 - |Roomy(counts, cap, n - 1)|);
    }
  }

  lemma NothingFull(counts: seq<nat>, cap: nat)
    ensures Roomy(counts, cap, 0) == {} && Product(cap, 0) == 0
  {
  }

  function Elements(s: seq<nat>): (r: set<nat>)
    ensures forall x :: x in r <==> x in s
    ensures |r| <= |s|
  {
    if s == [] then {} else
      assert s == s[..|s| - 1] + [s[|s| - 1]];
      Elements(s[..|s| - 1]) + {s[|s| - 1]}
  }

  /** The room a token does not take is none: fewer roomy experts than chosen ones. */
  lemma RoomyChosen(counts: seq<nat>, cap: nat, chosen: seq<nat>)
    requires forall e: nat :: e < |counts| && counts[e] < cap ==> e in chosen
    ensures |Roomy(counts, cap, |counts|)| <= |chosen|
  {
    SubsetSize(Roomy(counts, cap, |counts|), Elements(chosen));
  }

  /** A token short of experts finds all but fewer than perToken of the experts full. */
  lemma DropNeedsFull(counts: seq<nat>, cap: nat, chosen: seq<nat>, want: nat)
    requires |chosen| < want ==> forall e: nat :: e < |counts| && counts[e] < cap ==> e in chosen
    ensures |chosen| < want ==> Sum(counts) >= Product(cap, |counts| - want + 1)
    ensures |chosen| < want <= |counts| ==> exists e: nat :: e < |counts| && counts[e] >= cap
  {
    hide Product, Sum;
    if |chosen| < want {
      RoomyChosen(counts, cap, chosen);
      FullLoad(counts, cap, |counts|);
      assert counts[..|counts|] == counts;
      ProductGrows(cap, |counts| - want + 1, |counts| - |Roomy(counts, cap, |counts|)|);
      SomeFull(counts, cap);
    }
  }

  lemma SomeFull(counts: seq<nat>, cap: nat)
    ensures |Roomy(counts, cap, |counts|)| < |counts| ==> exists e: nat :: e < |counts| && counts[e] >= cap
  {
    if forall e: nat :: e < |counts| ==> counts[e] < cap {
      AllRoomy(counts, cap, |counts|);
    }
  }

  lemma {:induction false} AllRoomy(counts: seq<nat>, cap: int, n: nat)
    requires n <= |counts| && forall e: nat :: e < |counts| ==> counts[e] < cap
    ensures |Roomy(counts, cap, n)| == n
  {
    if n > 0 {
      AllRoomy(counts, cap, n - 1);
    }
  }

  /** A token gets its share when the t tokens before it cannot have filled enough experts: when
      they can fill no expert at all, or not all but perToken - 1 of them. */
  lemma RoomForToken(counts: seq<nat>, cap: nat, chosen: seq<nat>, want: nat, t: nat)
    requires want <= |counts| && Sum(counts) <= Product(want, t) && forall e :: 0 <= e < |counts| ==> counts[e] <= t
    requires |chosen| < want ==> forall e: nat :: e < |counts| && counts[e] < cap ==> e in chosen
    requires cap > t || Product(cap, |counts| - want + 1) > Product(want, t)
    ensures |chosen| >= want
  {
    hide Product, Sum;
    DropNeedsFull(counts, cap, chosen, want);
  }

  lemma {:induction false} NothingDropped(w: real -> real, c: MoeConfig, rows: seq<seq<real>>, cap: nat, n: nat)
    requires Exponential(w) && n <= |rows| && Square(c, rows, n) && Legal(c)
    requires n > 0 ==> cap > n - 1 || Product(cap, c.experts - c.perToken + 1) > Product(c.perToken, n - 1)
    ensures RouteUpTo(w, c, rows, cap, n).dropped == []
  {
    hide Exponential, Chosen, WeightsOf, Counted, Product, Sum, Assigned, Assignments, RouteUpTo, Beats;
    RouteNothing(w, c, rows, cap);
    if n > 0 {
      RouteNext(w, c, rows, cap, n);
      if n > 1 {
        ProductGrows(c.perToken, n - 2, n - 1);
      }
      NothingDropped(w, c, rows, cap, n - 1);
      LoadsKeep(w, c, rows, cap, n - 1);
      var d := RouteUpTo(w, c, rows, cap, n - 1);
      TokenGetsBest(w, c, rows[n - 1], d.load, cap);
      RoomForToken(d.load, cap, Chosen(w, c, rows[n - 1], d.load, cap), c.perToken, n - 1);
    }
  }
}
