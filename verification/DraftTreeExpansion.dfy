/** What expansion leaves out: nothing. And what paths and scores are, link by link. */
module DraftTreeExpansion {
  import opened Prelude
  import opened DraftTreeModel
  import opened DraftTreeProofs
  import opened TreeAttention

  // ----- paths and scores -----

  /** From the root to i, each node under the one before it. */
  ghost predicate LeadsTo(t: Tree, path: seq<nat>, i: nat)
    requires WellFormed(t)
  {
    && path != [] && path[0] == 0 && path[|path| - 1] == i
    && (forall k :: 0 <= k < |path| ==> path[k] < |t|)
    && forall k :: 0 < k < |path| ==> path[k] > 0 && t[path[k]].parent == Some(path[k - 1])
  }

  function ProductAlong(t: Tree, path: seq<nat>): real
    requires forall k :: 0 <= k < |path| ==> path[k] < |t|
  {
    if path == [] then 1.0 else Times(ProductAlong(t, path[..|path| - 1]), t[path[|path| - 1]].prob)
  }

  /** A node's path leads to it, as deep as the node, and its score is the product of the probabilities on it. */
  lemma {:induction false} PathLeads(t: Tree, i: nat)
    requires WellFormed(t) && i < |t|
    ensures LeadsTo(t, Path(t, i), i) && |Path(t, i)| == t[i].depth + 1
    ensures Score(t, i) == ProductAlong(t, Path(t, i))
  {
    hide ChildrenOf;
    if i > 0 {
      PathLeads(t, Parent(t, i));
      assert Path(t, i)[..|Path(t, i)| - 1] == Path(t, Parent(t, i));
    } else {
      assert [0][..0] == [];
      One();
    }
  }

  lemma One()
    ensures Times(1.0, 1.0) == 1.0
  {
  }

  // ----- expansion -----

  /** The node's children are the first `width` proposals after its path, in order. */
  ghost predicate Full(t: Tree, i: nat, fn: Proposer, width: int)
    requires WellFormed(t) && i < |t|
  {
    var picks, children := Picks(t, i, fn, width), t[i].children;
    && |children| == |picks|
    && forall k :: 0 <= k < |picks| ==> children[k] < |t| && (t[children[k]].token, t[children[k]].prob) == picks[k]
  }

  /** g is t with children added to the node, one for each pick, in order, and nothing else. */
  ghost predicate Gained(t: Tree, g: Tree, node: nat, picks: seq<(int, real)>)
    requires node < |t|
  {
    && WellFormed(t) && WellFormed(g) && |g| == |t| + |picks|
    && (forall i :: 0 <= i < |t| && i != node ==> g[i] == t[i])
    && g[node] == t[node].(children := t[node].children + Added(|t|, |picks|))
    && (forall i :: |t| <= i < |g| ==>
          g[i] == Node(picks[i - |t|].0, Some(node), t[node].depth + 1, picks[i - |t|].1, []))
    && forall i: nat | i < |t| :: PathTokens(g, i) == PathTokens(t, i)
  }

  lemma {:induction false} PicksGain(t: Tree, node: nat, picks: seq<(int, real)>)
    requires WellFormed(t) && node < |t|
    ensures Gained(t, WithPicks(t, node, picks), node, picks)
  {
    hide WellFormed, PathTokens;
    if picks == [] {
      assert t[node].children + Added(|t|, 0) == t[node].children;
    } else {
      var front, pick := picks[..|picks| - 1], picks[|picks| - 1];
      PicksGain(t, node, front);
      var s := WithPicks(t, node, front);
      assert Added(|t|, |picks|) == Added(|t|, |front|) + [|s|];
      assert t[node].children + Added(|t|, |front|) + [|s|] == t[node].children + Added(|t|, |picks|);
      forall i: nat | i < |s|
        ensures WellFormed(Grown(s, node, pick.0, pick.1))
        ensures PathTokens(Grown(s, node, pick.0, pick.1), i) == PathTokens(s, i)
      {
        TokensStay(s, node, pick.0, pick.1, i);
      }
    }
  }

  lemma FullStays(t: Tree, g: Tree, node: nat, picks: seq<(int, real)>, i: nat, fn: Proposer, width: int)
    requires node < |t| && Gained(t, g, node, picks) && i < |t| && i != node && Full(t, i, fn, width)
    ensures Full(g, i, fn, width)
  {
    hide WellFormed, PathTokens;
    forall k | 0 <= k < |t[i].children|
      ensures var c := t[i].children[k]; g[c].token == t[c].token && g[c].prob == t[c].prob
    {
      var c := t[i].children[k];
      if c != node {
        assert g[c] == t[c];
      }
    }
  }

  lemma PickAt(t: Tree, g: Tree, node: nat, picks: seq<(int, real)>, k: nat)
    requires node < |t| && Gained(t, g, node, picks) && k < |picks|
    ensures var i := |t| + k; i < |g| && g[i].token == picks[k].0 && g[i].prob == picks[k].1
  {
    hide WellFormed, PathTokens;
    var i := |t| + k;
    assert i - |t| == k && g[i].token == picks[i - |t|].0;
  }

  lemma GainedChildren(t: Tree, g: Tree, node: nat, picks: seq<(int, real)>)
    requires node < |t| && Gained(t, g, node, picks) && t[node].children == []
    ensures node < |g| && g[node].children == Added(|t|, |picks|)
  {
    hide WellFormed, PathTokens;
  }

  lemma SamePicks(t: Tree, g: Tree, node: nat, picks: seq<(int, real)>, fn: Proposer, width: int)
    requires node < |t| && Gained(t, g, node, picks)
    ensures WellFormed(g) && WellFormed(t) && node < |g| && Picks(g, node, fn, width) == Picks(t, node, fn, width)
  {
    hide WellFormed;
  }

  lemma NodeFull(t: Tree, g: Tree, node: nat, fn: Proposer, width: int)
    requires WellFormed(t) && node < |t| && t[node].children == [] && Gained(t, g, node, Picks(t, node, fn, width))
    ensures WellFormed(g) && node < |g| && Full(g, node, fn, width)
  {
    hide WellFormed, Gained, Picks;
    var picks := Picks(t, node, fn, width);
    GainedChildren(t, g, node, picks);
    SamePicks(t, g, node, picks, fn, width);
    forall k: nat | k < |picks|
      ensures var i := g[node].children[k]; i < |g| && (g[i].token, g[i].prob) == picks[k]
    {
      PickAt(t, g, node, picks, k);
    }
  }

  /** The level t has become g: the frontier is full, the rest as it was, and the new nodes, all of them at the
      next level, have no children yet. */
  ghost predicate LevelDone(t: Tree, frontier: seq<nat>, g: Tree, next: seq<nat>, fn: Proposer, width: int) {
    && WellFormed(t) && WellFormed(g) && |t| <= |g| && next == Added(|t|, |g| - |t|)
    && (forall i: nat | i < |t| :: if i in frontier then Full(g, i, fn, width) else g[i] == t[i])
    && (forall i: nat | i < |t| :: g[i].(children := t[i].children) == t[i] && PathTokens(g, i) == PathTokens(t, i))
    && forall i: nat | |t| <= i < |g| :: g[i].children == []
  }

  lemma LevelStep(t: Tree, front: seq<nat>, s: Tree, next: seq<nat>, node: nat, g: Tree, fn: Proposer, width: int)
    requires LevelDone(t, front, s, next, fn, width) && node < |t| && node !in front && t[node].children == []
    requires Gained(s, g, node, Picks(s, node, fn, width))
    ensures LevelDone(t, front + [node], g, next + Added(|s|, |g| - |s|), fn, width)
  {
    hide WellFormed, PathTokens, Picks;
    var picks := Picks(s, node, fn, width);
    assert next + Added(|s|, |g| - |s|) == Added(|t|, |g| - |t|);
    assert s[node] == t[node];
    NodeFull(s, g, node, fn, width);
    forall i: nat | i < |t| ensures if i in front + [node] then Full(g, i, fn, width) else g[i] == t[i] {
      if i in front {
        FullStays(s, g, node, picks, i, fn, width);
      }
    }
    forall i: nat | |t| <= i < |g| ensures g[i].children == [] {
      assert i < |s| ==> g[i] == s[i];
    }
  }

  lemma {:induction false} LevelFills(t: Tree, frontier: seq<nat>, fn: Proposer, width: int)
    requires WellFormed(t) && Below(frontier, |t|) && NoDup(frontier)
    requires forall k :: 0 <= k < |frontier| ==> t[frontier[k]].children == []
    ensures var (g, next) := Level(t, frontier, fn, width); LevelDone(t, frontier, g, next, fn, width)
  {
    hide WellFormed, PathTokens, Picks, Gained;
    if frontier != [] {
      var front, node := frontier[..|frontier| - 1], frontier[|frontier| - 1];
      LevelFills(t, front, fn, width);
      var (s, next) := Level(t, front, fn, width);
      var picks := Picks(s, node, fn, width);
      PicksGain(s, node, picks);
      assert front + [node] == frontier;
      LevelStep(t, front, s, next, node, WithPicks(s, node, picks), fn, width);
    }
  }

  /** The frontier is the last level, without children; every node above it is full. */
  ghost predicate Complete(t: Tree, frontier: seq<nat>, fn: Proposer, width: int, level: nat) {
    && WellFormed(t) && AtDepth(t, frontier, level) && NoDup(frontier)
    && forall i: nat | i < |t| ::
         if i in frontier then t[i].children == [] else t[i].depth < level && Full(t, i, fn, width)
  }

  lemma LevelCompletes(t: Tree, frontier: seq<nat>, g: Tree, next: seq<nat>, fn: Proposer, width: int, level: nat)
    requires Complete(t, frontier, fn, width, level) && LevelDone(t, frontier, g, next, fn, width)
    requires AtDepth(g, next, level + 1)
    ensures Complete(g, next, fn, width, level + 1)
  {
    hide WellFormed, PathTokens, Picks;
    forall i: nat | i < |t| ensures i !in next && g[i].depth < level + 1 && Full(g, i, fn, width) {
      if i in frontier {
        var k :| 0 <= k < |frontier| && frontier[k] == i;
        assert t[frontier[k]].depth == level;
      } else {
        OldStaysFull(t, frontier, g, next, fn, width, i);
      }
    }
    forall i: nat | |t| <= i < |g| ensures i in next {
      assert next[i - |t|] == i;
    }
  }

  lemma OldStaysFull(t: Tree, frontier: seq<nat>, g: Tree, next: seq<nat>, fn: Proposer, width: int, i: nat)
    requires LevelDone(t, frontier, g, next, fn, width) && i < |t| && i !in frontier && Full(t, i, fn, width)
    ensures Full(g, i, fn, width)
  {
    hide WellFormed, PathTokens;
    forall k | 0 <= k < |t[i].children|
      ensures var c := t[i].children[k]; g[c].token == t[c].token && g[c].prob == t[c].prob
    {
    }
  }

  lemma {:induction false} LevelsFill(t: Tree, frontier: seq<nat>, fn: Proposer, width: int, level: nat, depth: nat)
    returns (last: seq<nat>)
    requires Complete(t, frontier, fn, width, level)
    ensures Complete(Levels(t, frontier, fn, width, depth), last, fn, width, level + depth)
    decreases depth
  {
    hide WellFormed, PathTokens, Level, Complete, LevelDone;
    CompleteParts(t, frontier, fn, width, level);
    last := frontier;
    if depth == 0 {
      assert level + depth == level;
    } else if frontier == [] {
      NothingLeft(t, fn, width, level, level + depth);
    } else {
      LevelFills(t, frontier, fn, width);
      var (s, next) := Level(t, frontier, fn, width);
      NextDepth(t, frontier, s, next, fn, width, level);
      LevelCompletes(t, frontier, s, next, fn, width, level);
      last := LevelsFill(s, next, fn, width, level + 1, depth - 1);
    }
  }

  lemma CompleteParts(t: Tree, frontier: seq<nat>, fn: Proposer, width: int, level: nat)
    requires Complete(t, frontier, fn, width, level)
    ensures WellFormed(t) && Below(frontier, |t|) && NoDup(frontier) && AtDepth(t, frontier, level)
    ensures forall k :: 0 <= k < |frontier| ==> t[frontier[k]].children == []
  {
    hide WellFormed;
  }

  lemma NothingLeft(t: Tree, fn: Proposer, width: int, level: nat, more: nat)
    requires Complete(t, [], fn, width, level) && level <= more
    ensures Complete(t, [], fn, width, more)
  {
    hide WellFormed, Full;
  }

  /** The new nodes are one level down. */
  lemma NextDepth(t: Tree, frontier: seq<nat>, g: Tree, next: seq<nat>, fn: Proposer, width: int, level: nat)
    requires WellFormed(t) && Below(frontier, |t|) && (g, next) == Level(t, frontier, fn, width)
    requires AtDepth(t, frontier, level)
    ensures AtDepth(g, next, level + 1)
  {
    hide Level, Expands;
    AnyExpands(t, fn, width, level + 1);
    LevelExpands(t, t, frontier, fn, width, level);
  }

  lemma AnyExpands(t: Tree, fn: Proposer, width: int, depth: nat)
    requires WellFormed(t)
    ensures Expands(t, t, fn, width, depth)
  {
    hide WellFormed;
  }

  /** The node's children are all its proposals while it is above the depth, and it has none at the depth. */
  ghost predicate Expanded(t: Tree, i: nat, fn: Proposer, width: int, depth: nat)
    requires WellFormed(t) && i < |t|
  {
    t[i].depth <= depth && if t[i].depth < depth then Full(t, i, fn, width) else t[i].children == []
  }

  /** Every node of a tree expanded from its root that is above the depth has for children exactly its first
      `width` proposals, in order; those at the depth have none. */
  lemma ExpansionIsComplete(token: int, fn: Proposer, width: int, depth: nat)
    ensures WellFormed(Root(token))
    ensures var g := Levels(Root(token), [0], fn, width, depth);
      forall i: nat | i < |g| :: Expanded(g, i, fn, width, depth)
  {
    RootIsWellFormed(token);
    hide WellFormed, Levels, Full;
    var t := Root(token);
    assert Complete(t, [0], fn, width, 0) by {
      assert |t| == 1 && t[0].children == [];
    }
    var last := LevelsFill(t, [0], fn, width, 0, depth);
    var g := Levels(t, [0], fn, width, depth);
    forall i: nat | i < |g| ensures Expanded(g, i, fn, width, depth) {
      if i in last {
        var k :| 0 <= k < |last| && last[k] == i;
        assert g[last[k]].depth == depth;
      }
    }
  }
}
