/** When pruning by score keeps whole branches, and what the pruned tree has in common with the
    original. */
module DraftTreeProofs {
  import opened Prelude
  import opened Ranking
  import opened DraftTreeModel

  // ----- growing -----

  lemma RootIsWellFormed(token: int)
    ensures WellFormed(Root(token))
  {
    var t := Root(token);
    assert ChildrenOf(t, 0, 1) == ChildrenOf(t, 0, 0) + [];
  }

  lemma {:induction false} ChildrenGrow(t: Tree, parent: nat, token: int, prob: real, i: nat, n: nat)
    requires parent < |t| && n <= |t|
    ensures var g := Grown(t, parent, token, prob); ChildrenOf(g, i, n) == ChildrenOf(t, i, n)
  {
    if n > 0 {
      ChildrenGrow(t, parent, token, prob, i, n - 1);
    }
  }

  lemma {:induction false} NoChildrenYet(t: Tree, i: nat, n: nat)
    requires n <= |t| && forall k :: 0 <= k < n ==> t[k].parent != Some(i)
    ensures ChildrenOf(t, i, n) == []
  {
    if n > 0 {
      NoChildrenYet(t, i, n - 1);
    }
  }

  lemma ChildrenStep(g: Tree, i: nat)
    requires |g| > 0
    ensures ChildrenOf(g, i, |g|) == ChildrenOf(g, i, |g| - 1)
      + if g[|g| - 1].parent == Some(i) then [|g| - 1] else []
  {
  }

  lemma GrownChildren(t: Tree, parent: nat, token: int, prob: real, i: nat)
    requires WellFormed(t) && parent < |t| && i <= |t|
    ensures var g := Grown(t, parent, token, prob); g[i].children == ChildrenOf(g, i, |g|)
  {
    hide ChildrenOf;
    var g := Grown(t, parent, token, prob);
    ChildrenGrow(t, parent, token, prob, i, |t|);
    ChildrenStep(g, i);
    if i == |t| {
      NoChildrenYet(t, i, |t|);
    }
  }

  lemma GrownIsWellFormed(t: Tree, parent: nat, token: int, prob: real)
    requires WellFormed(t) && parent < |t|
    ensures WellFormed(Grown(t, parent, token, prob))
  {
    hide ChildrenOf;
    var g := Grown(t, parent, token, prob);
    forall i | 0 <= i < |g| ensures g[i].children == ChildrenOf(g, i, |g|) {
      GrownChildren(t, parent, token, prob, i);
    }
  }

  // ----- paths -----

  lemma {:induction false} PathIsAncestors(t: Tree, i: nat, j: nat)
    requires WellFormed(t) && i < |t|
    ensures j in Path(t, i) <==> Ancestor(t, j, i)
  {
    hide WellFormed;
    if i > 0 {
      PathIsAncestors(t, Parent(t, i), j);
    }
  }

  // ----- pruning -----

  /** The copied nodes are exactly the kept ones whose ancestors are all kept. */
  predicate Rooted(t: Tree, keep: seq<nat>, i: nat)
    requires WellFormed(t) && i < |t|
  {
    i == 0 || (i in keep && Rooted(t, keep, Parent(t, i)))
  }

  /** The pruning so far: a well-formed tree of the copied nodes, each under its parent's copy. */
  ghost predicate Copies(t: Tree, keep: seq<nat>, n: nat, q: Pruning)
    requires WellFormed(t) && n <= |t|
  {
    && WellFormed(q.tree)
    && (forall i :: i in q.remap ==> i == 0 || i < n)
    && (forall i :: 0 <= i < |t| && (i == 0 || i < n) ==> (i in q.remap <==> Rooted(t, keep, i)))
    && (forall i :: i in q.remap ==> q.remap[i] < |q.tree|)
    && (forall i, j :: i in q.remap && j in q.remap && i < j ==> q.remap[i] < q.remap[j])
    && |q.remap| == |q.tree|
    && (forall i :: i in q.remap ==> SameNode(t, i, q))
  }

  ghost predicate SameNode(t: Tree, i: nat, q: Pruning)
    requires WellFormed(t) && WellFormed(q.tree) && i in q.remap && q.remap[i] < |q.tree|
  {
    && (i == 0 <==> q.remap[i] == 0)
    && i < |t| && q.tree[q.remap[i]].token == t[i].token
    && (i > 0 ==> q.tree[q.remap[i]].prob == t[i].prob)
    && q.tree[q.remap[i]].depth == t[i].depth
    && (i > 0 ==> Parent(t, i) in q.remap && Parent(q.tree, q.remap[i]) == q.remap[Parent(t, i)])
  }

  lemma CopiesRoot(t: Tree, keep: seq<nat>, n: nat)
    requires WellFormed(t) && n <= 1
    ensures Copies(t, keep, n, Pruning(Root(t[0].token), map[0 := 0]))
  {
    RootIsWellFormed(t[0].token);
  }

  /** An older copy is the same node after growing. */
  lemma SameStays(t: Tree, q: Pruning, x: nat, parent: nat, i: nat)
    requires WellFormed(t) && WellFormed(q.tree) && parent < |q.tree| && 0 < x < |t| && x !in q.remap
    requires i in q.remap && q.remap[i] < |q.tree| && SameNode(t, i, q)
    ensures var q' := Pruning(Grown(q.tree, parent, t[x].token, t[x].prob), q.remap[x := |q.tree|]);
      WellFormed(q'.tree) && SameNode(t, i, q')
  {
    hide WellFormed;
    GrownIsWellFormed(q.tree, parent, t[x].token, t[x].prob);
  }

  lemma SameNew(t: Tree, q: Pruning, x: nat)
    requires WellFormed(t) && WellFormed(q.tree) && 0 < x < |t| && x !in q.remap
    requires var p := Parent(t, x); p in q.remap && q.remap[p] < |q.tree| && SameNode(t, p, q)
    ensures var q' := Pruning(Grown(q.tree, q.remap[Parent(t, x)], t[x].token, t[x].prob), q.remap[x := |q.tree|]);
      WellFormed(q'.tree) && SameNode(t, x, q')
  {
    GrownIsWellFormed(q.tree, q.remap[Parent(t, x)], t[x].token, t[x].prob);
  }

  lemma CopiesNext(t: Tree, keep: seq<nat>, n: nat, q: Pruning)
    requires WellFormed(t) && 1 < n <= |t| && Copies(t, keep, n - 1, q)
    requires n - 1 in keep && Parent(t, n - 1) in q.remap
    ensures var x := n - 1;
      Copies(t, keep, n, Pruning(Grown(q.tree, q.remap[Parent(t, x)], t[x].token, t[x].prob), q.remap[x := |q.tree|]))
  {
    hide WellFormed, SameNode, Grown;
    var x := n - 1;
    var q' := Pruning(Grown(q.tree, q.remap[Parent(t, x)], t[x].token, t[x].prob), q.remap[x := |q.tree|]);
    GrownSize(q.tree, q.remap[Parent(t, x)], t[x].token, t[x].prob);
    SameNew(t, q, x);
    forall i | i in q'.remap ensures SameNode(t, i, q') {
      if i != x {
        SameStays(t, q, x, q.remap[Parent(t, x)], i);
      }
    }
  }

  lemma CopiesSkip(t: Tree, keep: seq<nat>, n: nat, q: Pruning)
    requires WellFormed(t) && 1 < n <= |t| && Copies(t, keep, n - 1, q)
    requires n - 1 !in keep || Parent(t, n - 1) !in q.remap
    ensures Copies(t, keep, n, q)
  {
    hide WellFormed, SameNode;
    assert Rooted(t, keep, n - 1) <==> n - 1 in keep && Rooted(t, keep, Parent(t, n - 1));
  }

  lemma GrownSize(t: Tree, parent: nat, token: int, prob: real)
    requires parent < |t|
    ensures |Grown(t, parent, token, prob)| == |t| + 1
  {
  }

  lemma {:induction false} PruneCopies(t: Tree, keep: seq<nat>, n: nat)
    requires WellFormed(t) && n <= |t|
    ensures Copies(t, keep, n, PruneUpTo(t, keep, n))
  {
    hide WellFormed, Copies, Grown, Root;
    if n <= 1 {
      CopiesRoot(t, keep, n);
    } else {
      PruneCopies(t, keep, n - 1);
      var q := PruneUpTo(t, keep, n - 1);
      if n - 1 in keep && Parent(t, n - 1) in q.remap {
        CopiesNext(t, keep, n, q);
      } else {
        CopiesSkip(t, keep, n, q);
      }
    }
  }

  // ----- what the pruned tree keeps -----

  /** Scores are the originals. */
  lemma {:induction false} SameScore(t: Tree, keep: seq<nat>, n: nat, q: Pruning, i: nat)
    requires WellFormed(t) && n <= |t| && Copies(t, keep, n, q) && i in q.remap
    ensures i < |t| && q.remap[i] < |q.tree| && Score(q.tree, q.remap[i]) == Score(t, i)
  {
    hide WellFormed, Rooted;
    assert SameNode(t, i, q);
    if i > 0 {
      SameScore(t, keep, n, q, Parent(t, i));
    }
  }

  /** The mask is the original's, restricted to the kept nodes. */
  lemma {:induction false} SameAncestors(t: Tree, keep: seq<nat>, n: nat, q: Pruning, i: nat, j: nat)
    requires WellFormed(t) && n <= |t| && Copies(t, keep, n, q) && i in q.remap && j in q.remap
    ensures i < |t| && q.remap[i] < |q.tree|
    ensures Ancestor(q.tree, q.remap[j], q.remap[i]) <==> Ancestor(t, j, i)
    decreases i
  {
    hide WellFormed, Rooted;
    assert SameNode(t, i, q);
    assert q.remap[j] == q.remap[i] <==> j == i;
    if i > 0 {
      SameAncestors(t, keep, n, q, Parent(t, i), j);
    }
  }

  // ----- no orphans -----

  /** Every node chosen by score is copied: the orphan branch is not taken. */
  ghost predicate NoOrphan(t: Tree, maxNodes: int)
    requires WellFormed(t)
  {
    forall i :: i in Kept(t, maxNodes) ==> i in Prune(t, maxNodes).remap
  }

  /** No node below the first level scores above its parent. */
  predicate NeverRises(t: Tree)
    requires WellFormed(t)
  {
    forall i :: 0 < i < |t| && Parent(t, i) != 0 ==> Score(t, i) <= Score(t, Parent(t, i))
  }

  lemma KeptRange(t: Tree, maxNodes: int, i: nat)
    requires WellFormed(t)
    ensures i in Kept(t, maxNodes) ==> i < |t|
  {
  }

  /** Whatever scores no less than a kept node and comes before it is kept. */
  lemma KeptIsPrefix(t: Tree, maxNodes: int, i: nat, j: nat)
    requires WellFormed(t) && i in Kept(t, maxNodes) && j < |t| && i < |t|
    ensures Before(Scores(t), j, i) ==> j in Kept(t, maxNodes)
  {
    hide WellFormed, Score;
    var scores := Scores(t);
    var order, n := Ranked(scores), Sliced(|t|, maxNodes);
    RankedSorts(scores);
    var a :| 0 <= a < n && order[a] == i;
    assert j in order;
    var b :| 0 <= b < |order| && order[b] == j;
    if a < b {
      assert Before(scores, order[a], order[b]);
    }
  }

  lemma {:induction false} KeptAreRooted(t: Tree, maxNodes: int, i: nat)
    requires WellFormed(t) && NeverRises(t) && i < |t| && i in Kept(t, maxNodes)
    ensures Rooted(t, Kept(t, maxNodes), i)
  {
    hide WellFormed, Kept;
    if i > 0 {
      var p := Parent(t, i);
      if p > 0 {
        KeptIsPrefix(t, maxNodes, i, p);
        assert Before(Scores(t), p, i);
        KeptAreRooted(t, maxNodes, p);
      }
    }
  }

  /** Cutting right after a node that outscores its parent keeps the one without the other. */
  lemma OrphanShows(t: Tree, i: nat)
    requires WellFormed(t) && 0 < i < |t| && Parent(t, i) != 0 && Score(t, i) > Score(t, Parent(t, i))
    ensures exists maxNodes: int :: !NoOrphan(t, maxNodes)
  {
    hide WellFormed, Score, Prune, Copies, Sliced;
    var p := Parent(t, i);
    var m := CutAfter(t, i, p);
    PruneIs(t, m);
    Unrooted(t, Kept(t, m), i, Prune(t, m));
    assert !NoOrphan(t, m);
  }

  /** The limit that keeps i and, as i scores above p, not p. */
  lemma CutAfter(t: Tree, i: nat, p: nat) returns (m: nat)
    requires WellFormed(t) && i < |t| && p < |t| && Score(t, i) > Score(t, p)
    ensures i in Kept(t, m) && p !in Kept(t, m)
  {
    hide WellFormed, Score;
    var scores := Scores(t);
    var order := Ranked(scores);
    RankedSorts(scores);
    assert i in order;
    var a :| 0 <= a < |order| && order[a] == i;
    m := a + 1;
    assert Kept(t, m) == order[..m] && order[..m][a] == i;
    forall b | 0 <= b < m ensures order[b] != p {
      assert b < a ==> Before(scores, order[b], order[a]);
    }
  }

  lemma Unrooted(t: Tree, keep: seq<nat>, i: nat, q: Pruning)
    requires WellFormed(t) && 0 < i < |t| && Parent(t, i) != 0 && Parent(t, i) !in keep
    requires Copies(t, keep, |t|, q)
    ensures i !in q.remap
  {
    hide WellFormed, SameNode;
    assert !Rooted(t, keep, Parent(t, i));
    assert !Rooted(t, keep, i);
  }

  /** Pruning orphans nothing, for every limit, exactly when no score rises below the first
      level. */
  lemma OrphansExactly(t: Tree)
    requires WellFormed(t)
    ensures (forall maxNodes: int :: NoOrphan(t, maxNodes)) <==> NeverRises(t)
  {
    hide WellFormed, Score, Kept, Prune, Rooted;
    if NeverRises(t) {
      forall maxNodes: int, i | i in Kept(t, maxNodes) ensures i in Prune(t, maxNodes).remap {
        KeptRange(t, maxNodes, i);
        KeptAreRooted(t, maxNodes, i);
        PruneIs(t, maxNodes);
      }
    } else {
      var i :| 0 < i < |t| && Parent(t, i) != 0 && Score(t, i) > Score(t, Parent(t, i));
      OrphanShows(t, i);
    }
  }

  lemma PruneIs(t: Tree, maxNodes: int)
    requires WellFormed(t)
    ensures Copies(t, Kept(t, maxNodes), |t|, Prune(t, maxNodes))
  {
    PruneCopies(t, Kept(t, maxNodes), |t|);
  }

  /** Pruning restricts: a kept node keeps its token, score and depth, and two kept nodes attend to
      each other exactly where they did. */
  lemma PrunedIsRestriction(t: Tree, maxNodes: int, i: nat, j: nat)
    requires WellFormed(t) && i in Prune(t, maxNodes).remap && j in Prune(t, maxNodes).remap
    ensures WellFormed(Prune(t, maxNodes).tree)
    ensures var q := Prune(t, maxNodes);
      && i < |t| && q.remap[i] < |q.tree| && (i != j ==> q.remap[i] != q.remap[j])
      && q.tree[q.remap[i]].token == t[i].token && q.tree[q.remap[i]].depth == t[i].depth
      && Score(q.tree, q.remap[i]) == Score(t, i)
      && (Ancestor(q.tree, q.remap[j], q.remap[i]) <==> Ancestor(t, j, i))
  {
    hide WellFormed, Rooted, Prune, Kept, Score, Ancestor;
    var q := Prune(t, maxNodes);
    PruneIs(t, maxNodes);
    SameScore(t, Kept(t, maxNodes), |t|, q, i);
    SameAncestors(t, Kept(t, maxNodes), |t|, q, i, j);
    assert SameNode(t, i, q);
  }

  // ----- probabilities -----

  predicate Probabilities(t: Tree) {
    forall i :: 0 < i < |t| ==> 0.0 <= t[i].prob <= 1.0
  }

  lemma {:induction false} ScoresFall(t: Tree, i: nat)
    requires WellFormed(t) && Probabilities(t) && i < |t|
    ensures 0.0 <= Score(t, i) <= 1.0
    ensures i > 0 ==> Score(t, i) <= Score(t, Parent(t, i))
  {
    if i > 0 {
      ScoresFall(t, Parent(t, i));
      Shrunk(Score(t, Parent(t, i)), t[i].prob);
    }
  }

  lemma Shrunk(a: real, b: real)
    requires 0.0 <= a && 0.0 <= b <= 1.0
    ensures 0.0 <= Times(a, b) <= a
  {
    assert a * (1.0 - b) >= 0.0;
    assert a * b >= 0.0;
  }

  /** With probabilities as weights pruning keeps whole branches, for every limit. */
  lemma ProbabilitiesKeepBranches(t: Tree, maxNodes: int)
    requires WellFormed(t) && Probabilities(t)
    ensures NoOrphan(t, maxNodes)
  {
    hide WellFormed, Score, NoOrphan;
    forall i | 0 < i < |t| && Parent(t, i) != 0 ensures Score(t, i) <= Score(t, Parent(t, i)) {
      ScoresFall(t, i);
    }
    OrphansExactly(t);
  }

  /** The root scores best, so it is kept whenever anything is. */
  lemma RootKept(t: Tree, maxNodes: int)
    requires WellFormed(t) && Probabilities(t) && Sliced(|t|, maxNodes) > 0
    ensures 0 in Kept(t, maxNodes)
  {
    hide Score;
    var order := Ranked(Scores(t));
    var first := order[0];
    assert first in Kept(t, maxNodes) by {
      assert Kept(t, maxNodes)[0] == first;
    }
    if first != 0 {
      ScoresFall(t, first);
      RootScore(t);
      KeptIsPrefix(t, maxNodes, first, 0);
    }
  }

  lemma RootScore(t: Tree)
    requires WellFormed(t)
    ensures Score(t, 0) == 1.0
  {
  }

  /** A map whose keys are the elements of a duplicate-free sequence is as large as it. */
  lemma {:induction false} MapSize(m: map<nat, nat>, s: seq<nat>)
    requires NoDup(s) && forall i :: i in m <==> i in s
    ensures |m| == |s|
  {
    if s == [] {
      assert m == map[];
    } else {
      var last := s[|s| - 1];
      DropLast(s);
      MapSize(m - {last}, s[..|s| - 1]);
      assert m.Keys == (m - {last}).Keys + {last};
      KeysSize(m);
      KeysSize(m - {last});
    }
  }

  lemma KeysSize(m: map<nat, nat>)
    ensures |m.Keys| == |m|
  {
  }

  /** The pruned tree has as many nodes as asked for, at least the root and at most all. */
  lemma PrunedSize(t: Tree, maxNodes: int)
    requires WellFormed(t) && Probabilities(t)
    ensures |Prune(t, maxNodes).tree| == Max(1, Sliced(|t|, maxNodes))
  {
    hide WellFormed, Score, Rooted, SameNode;
    var keep, q := Kept(t, maxNodes), Prune(t, maxNodes);
    PruneIs(t, maxNodes);
    ProbabilitiesKeepBranches(t, maxNodes);
    if keep == [] {
      RootedNothing(t, q);
      MapSize(q.remap, [0]);
    } else {
      RootKept(t, maxNodes);
      RankedSorts(Scores(t));
      forall i ensures i in q.remap <==> i in keep {
        if i in q.remap {
          RootedKept(t, keep, i);
        }
      }
      MapSize(q.remap, keep);
    }
  }

  lemma RootedNothing(t: Tree, q: Pruning)
    requires WellFormed(t) && Copies(t, [], |t|, q)
    ensures forall i :: i in q.remap <==> i in [0]
  {
    hide SameNode;
    assert 0 in q.remap <==> Rooted(t, [], 0);
    forall i: nat | 0 < i < |t| ensures i !in q.remap {
      assert !Rooted(t, [], i);
    }
  }

  lemma RootedKept(t: Tree, keep: seq<nat>, i: nat)
    requires WellFormed(t) && i < |t| && Rooted(t, keep, i)
    ensures i == 0 || i in keep
  {
  }

  /** No dropped node scores above a kept one. */
  lemma KeptAreBest(t: Tree, maxNodes: int, i: nat, j: nat)
    requires WellFormed(t) && Probabilities(t)
    requires i in Prune(t, maxNodes).remap && j < |t| && j !in Prune(t, maxNodes).remap
    ensures i < |t| && Score(t, j) <= Score(t, i)
  {
    hide WellFormed, Score, Rooted, SameNode, Kept, Prune;
    PruneIs(t, maxNodes);
    ProbabilitiesKeepBranches(t, maxNodes);
    assert Rooted(t, Kept(t, maxNodes), i);
    RootedKept(t, Kept(t, maxNodes), i);
    if i == 0 {
      RootScore(t);
      ScoresFall(t, j);
    } else {
      KeptIsPrefix(t, maxNodes, i, j);
    }
  }
}
