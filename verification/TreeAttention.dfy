/** The draft tree as an object, and its breadth-first expansion. */
module TreeAttention {
  import opened Prelude
  import opened Ranking
  import opened DraftTreeModel
  import opened DraftTreeProofs

  function Reversed(s: seq<nat>): seq<nat> {
    if s == [] then [] else [s[|s| - 1]] + Reversed(s[..|s| - 1])
  }

  lemma PathStep(t: Tree, i: nat, above: seq<nat>)
    requires WellFormed(t) && i < |t|
    ensures Reversed(above + [i]) == [i] + Reversed(above)
    ensures Path(t, i) + Reversed(above) ==
      (if i == 0 then [] else Path(t, Parent(t, i))) + Reversed(above + [i])
  {
    assert (above + [i])[..|above|] == above;
  }

  lemma PathInTree(t: Tree, i: nat)
    requires WellFormed(t) && i < |t|
    ensures forall k :: 0 <= k < |Path(t, i)| ==> Path(t, i)[k] < |t|
  {
  }

  lemma RootFirst(t: Tree)
    requires WellFormed(t)
    ensures |t| > 0
  {
  }

  class DraftTree {
    var nodes: Tree

    ghost predicate Valid()
      reads this
    {
      WellFormed(nodes)
    }

    constructor (rootToken: int)
      ensures Valid() && nodes == Root(rootToken)
    {
      nodes := Root(rootToken);
      new;
      RootIsWellFormed(rootToken);
    }

    /** None when there is no such parent. */
    method Add(parent: nat, token: int, prob: real) returns (idx: Option<nat>)
      requires Valid()
      modifies this
      ensures Valid()
      ensures parent >= old(|nodes|) ==> idx.None? && nodes == old(nodes)
      ensures parent < old(|nodes|) ==>
        idx == Some(old(|nodes|)) && nodes == Grown(old(nodes), parent, token, prob)
    {
      hide WellFormed, ChildrenOf;
      if parent >= |nodes| {
        return None;
      }
      GrownIsWellFormed(nodes, parent, token, prob);
      idx := Some(|nodes|);
      var node := Node(token, Some(parent), nodes[parent].depth + 1, prob, []);
      var children := nodes[parent].children + [|nodes|];
      nodes := nodes[parent := nodes[parent].(children := children)] + [node];
    }

    /** Up to the root, then reversed. */
    method PathTo(idx: nat) returns (path: seq<nat>)
      requires Valid() && idx < |nodes|
      ensures path == Path(nodes, idx)
    {
      hide ChildrenOf;
      path := [];
      var at: Option<nat> := Some(idx);
      while at.Some?
        invariant at.Some? ==> at.value < |nodes| && Path(nodes, at.value) + Reversed(path) == Path(nodes, idx)
        invariant at.None? ==> Reversed(path) == Path(nodes, idx)
        decreases if at.Some? then at.value + 1 else 0
      {
        PathStep(nodes, at.value, path);
        path := path + [at.value];
        at := nodes[at.value].parent;
      }
      path := Reversed(path);
    }

    method Leaves() returns (leaves: seq<nat>)
      ensures forall i: nat :: i in leaves <==> i < |nodes| && nodes[i].children == []
      ensures forall a, b :: 0 <= a < b < |leaves| ==> leaves[a] < leaves[b]
    {
      leaves := [];
      for i := 0 to |nodes|
        invariant forall k: nat :: k in leaves <==> k < i && nodes[k].children == []
        invariant forall a, b :: 0 <= a < b < |leaves| ==> leaves[a] < leaves[b]
      {
        if nodes[i].children == [] {
          assert forall a :: 0 <= a < |leaves| ==> leaves[a] in leaves;
          leaves := leaves + [i];
        }
      }
    }

    /** Every node attends to its own path and nothing else. */
    method AttentionMask() returns (mask: array2<int>)
      requires Valid()
      ensures fresh(mask) && mask.Length0 == mask.Length1 == |nodes|
      ensures forall i, j :: 0 <= i < |nodes| && 0 <= j < |nodes| ==>
        mask[i, j] == if Ancestor(nodes, j, i) then 1 else 0
    {
      hide WellFormed, Ancestor, Path;
      var n := |nodes|;
      mask := new int[n, n]((i, j) => 0);
      for i := 0 to n
        invariant forall k, j :: 0 <= k < i && 0 <= j < n ==> mask[k, j] == if Ancestor(nodes, j, k) then 1 else 0
        invariant forall k, j :: i <= k < n && 0 <= j < n ==> mask[k, j] == 0
      {
        var path := PathTo(i);
        PathInTree(nodes, i);
        for a := 0 to |path|
          invariant forall k, j :: 0 <= k < i && 0 <= j < n ==> mask[k, j] == if Ancestor(nodes, j, k) then 1 else 0
          invariant forall j :: 0 <= j < n ==> mask[i, j] == if j in path[..a] then 1 else 0
          invariant forall k, j :: i < k < n && 0 <= j < n ==> mask[k, j] == 0
        {
          assert path[..a + 1] == path[..a] + [path[a]];
          mask[i, path[a]] := 1;
        }
        assert path[..|path|] == path;
        forall j: nat | j < n ensures j in path <==> Ancestor(nodes, j, i) {
          PathIsAncestors(nodes, i, j);
        }
      }
    }

    method CumulativeProbs() returns (out: array<real>)
      requires Valid()
      ensures fresh(out) && out[..] == Scores(nodes)
    {
      hide ChildrenOf, Times;
      out := new real[|nodes|](i => 0.0);
      out[0] := 1.0;
      for i := 1 to |nodes|
        invariant forall k :: 0 <= k < i ==> out[k] == Score(nodes, k)
      {
        var parent := nodes[i].parent.value;
        out[i] := Times(out[parent], nodes[i].prob);
      }
    }

    /** The nodes kept by score, copied in order; one whose parent was not copied is skipped. */
    method Prune(maxNodes: int) returns (pruned: DraftTree, remap: map<nat, nat>)
      requires Valid()
      ensures fresh(pruned) && pruned.Valid()
      ensures Pruning(pruned.nodes, remap) == DraftTreeModel.Prune(nodes, maxNodes)
    {
      hide WellFormed, Grown, Copies;
      RootFirst(nodes);
      var scores := CumulativeProbs();
      var keep := Ranked(scores[..])[..Sliced(|nodes|, maxNodes)];
      pruned := new DraftTree(nodes[0].token);
      remap := map[0 := 0];
      for i := 1 to |nodes|
        invariant pruned.Valid() && fresh(pruned) && nodes == old(nodes)
        invariant Pruning(pruned.nodes, remap) == PruneUpTo(nodes, keep, i)
      {
        if i !in keep {
          continue;
        }
        var parent := ParentOf(i);
        if parent !in remap {
          continue;
        }
        var idx := pruned.Add(remap[parent], nodes[i].token, nodes[i].prob);
        remap := remap[i := idx.value];
      }
    }

    function ParentOf(i: nat): (p: nat)
      requires Valid() && 0 < i < |nodes|
      reads this
      ensures p == Parent(nodes, i)
    {
      nodes[i].parent.value
    }
  }

  // ----- expansion -----

  /** What a draft model proposes after a path of tokens: tokens with their probabilities. */
  type Proposer = seq<int> -> seq<(int, real)>

  /** The tokens from the root down to node i. */
  function PathTokens(t: Tree, i: nat): (r: seq<int>)
    requires WellFormed(t) && i < |t|
  {
    if i == 0 then [t[0].token] else PathTokens(t, Parent(t, i)) + [t[i].token]
  }

  lemma {:induction false} TokensStay(t: Tree, parent: nat, token: int, prob: real, i: nat)
    requires WellFormed(t) && parent < |t| && i < |t|
    ensures var g := Grown(t, parent, token, prob); WellFormed(g) && PathTokens(g, i) == PathTokens(t, i)
  {
    hide WellFormed;
    GrownIsWellFormed(t, parent, token, prob);
    if i > 0 {
      TokensStay(t, parent, token, prob, Parent(t, i));
    }
  }

  lemma {:induction false} TokensOfPath(t: Tree, i: nat, tokens: seq<int>)
    requires WellFormed(t) && i < |t| && |tokens| == |Path(t, i)|
    requires forall k :: 0 <= k < |tokens| ==> Path(t, i)[k] < |t| && tokens[k] == t[Path(t, i)[k]].token
    ensures tokens == PathTokens(t, i)
  {
    if i > 0 {
      var front := Path(t, Parent(t, i));
      assert Path(t, i) == front + [i];
      forall k | 0 <= k < |front| ensures front[k] < |t| && tokens[..|front|][k] == t[front[k]].token {
        assert Path(t, i)[k] == front[k];
      }
      TokensOfPath(t, Parent(t, i), tokens[..|front|]);
      assert tokens == tokens[..|front|] + [t[i].token];
    }
  }

  /** Node i is one of the first `width` proposals after its parent's path. */
  predicate Proposed(t: Tree, fn: Proposer, width: int, i: nat)
    requires WellFormed(t) && 0 < i < |t|
  {
    var all := fn(PathTokens(t, Parent(t, i)));
    (t[i].token, t[i].prob) in all[..Sliced(|all|, width)]
  }

  /** The later tree is the earlier one with nodes from `from` on added at most `depth` deep,
      all of them proposed. */
  ghost predicate Expands(before: Tree, t: Tree, fn: Proposer, width: int, depth: nat) {
    && WellFormed(t) && |before| <= |t|
    && (forall i :: 0 <= i < |before| ==> t[i].(children := before[i].children) == before[i])
    && (forall i :: |before| <= i < |t| ==> i > 0 && t[i].depth <= depth && Proposed(t, fn, width, i))
  }

  lemma ExpandsMore(before: Tree, t: Tree, fn: Proposer, width: int, depth: nat, node: nat, pick: (int, real))
    requires Expands(before, t, fn, width, depth) && node < |t| && t[node].depth < depth
    requires var all := fn(PathTokens(t, node)); pick in all[..Sliced(|all|, width)]
    ensures Expands(before, Grown(t, node, pick.0, pick.1), fn, width, depth)
  {
    hide WellFormed;
    var g := Grown(t, node, pick.0, pick.1);
    GrownIsWellFormed(t, node, pick.0, pick.1);
    forall i | |before| <= i < |g| ensures i > 0 && g[i].depth <= depth && Proposed(g, fn, width, i) {
      RootFirst(t);
      if i < |t| {
        assert Parent(g, i) == Parent(t, i);
        TokensStay(t, node, pick.0, pick.1, Parent(t, i));
      } else {
        TokensStay(t, node, pick.0, pick.1, node);
      }
    }
  }

  lemma ExpandsDeeper(before: Tree, t: Tree, fn: Proposer, width: int, depth: nat, more: nat)
    requires Expands(before, t, fn, width, depth) && depth <= more
    ensures Expands(before, t, fn, width, more)
  {
  }

  /** The tokens on the way to a node. */
  method TokensTo(tree: DraftTree, node: nat) returns (tokens: seq<int>)
    requires tree.Valid() && node < |tree.nodes|
    ensures tokens == PathTokens(tree.nodes, node)
  {
    hide WellFormed;
    var path := tree.PathTo(node);
    PathInTree(tree.nodes, node);
    tokens := [];
    for k := 0 to |path|
      invariant |tokens| == k && forall m :: 0 <= m < k ==> tokens[m] == tree.nodes[path[m]].token
    {
      tokens := tokens + [tree.nodes[path[k]].token];
    }
    TokensOfPath(tree.nodes, node, tokens);
  }

  predicate Below(frontier: seq<nat>, n: nat) {
    forall k :: 0 <= k < |frontier| ==> frontier[k] < n
  }

  /** The first `width` proposals after a node's path. */
  function Picks(t: Tree, node: nat, fn: Proposer, width: int): seq<(int, real)>
    requires WellFormed(t) && node < |t|
  {
    var all := fn(PathTokens(t, node));
    all[..Sliced(|all|, width)]
  }

  function WithPicks(t: Tree, node: nat, picks: seq<(int, real)>): (r: Tree)
    requires WellFormed(t) && node < |t|
    ensures WellFormed(r) && |r| == |t| + |picks|
  {
    if picks == [] then t
    else
      var s, pick := WithPicks(t, node, picks[..|picks| - 1]), picks[|picks| - 1];
      GrownIsWellFormed(s, node, pick.0, pick.1);
      Grown(s, node, pick.0, pick.1)
  }

  function Added(from: nat, n: nat): (r: seq<nat>)
    ensures |r| == n && forall i :: 0 <= i < n ==> r[i] == from + i
  {
    seq(n, i requires i >= 0 => from + i)
  }

  /** One level: every node of the frontier gets its proposals as children, in order. */
  function Level(t: Tree, frontier: seq<nat>, fn: Proposer, width: int): (r: (Tree, seq<nat>))
    requires WellFormed(t) && Below(frontier, |t|)
    ensures WellFormed(r.0) && |r.0| >= |t| && Below(r.1, |r.0|)
  {
    if frontier == [] then (t, [])
    else
      var (s, next) := Level(t, frontier[..|frontier| - 1], fn, width);
      var node := frontier[|frontier| - 1];
      var picks := Picks(s, node, fn, width);
      (WithPicks(s, node, picks), next + Added(|s|, |picks|))
  }

  /** Level after level, until the depth is reached or nothing was added. */
  function Levels(t: Tree, frontier: seq<nat>, fn: Proposer, width: int, depth: nat): (r: Tree)
    requires WellFormed(t) && Below(frontier, |t|)
    ensures WellFormed(r)
    decreases depth
  {
    if depth == 0 || frontier == [] then t
    else
      var (s, next) := Level(t, frontier, fn, width);
      Levels(s, next, fn, width, depth - 1)
  }

  // ----- what expansion adds -----

  /** All nodes of the frontier are in the tree, at the given depth. */
  predicate AtDepth(t: Tree, frontier: seq<nat>, depth: nat) {
    forall k :: 0 <= k < |frontier| ==> frontier[k] < |t| && t[frontier[k]].depth == depth
  }

  ghost predicate SameDepths(t: Tree, g: Tree) {
    |t| <= |g| && forall i :: 0 <= i < |t| ==> g[i].depth == t[i].depth
  }

  lemma {:induction false} PicksExpand(before: Tree, t: Tree, fn: Proposer, width: int, node: nat,
      picks: seq<(int, real)>)
    requires WellFormed(t) && node < |t| && Expands(before, t, fn, width, t[node].depth + 1)
    requires forall k :: 0 <= k < |picks| ==> picks[k] in Picks(t, node, fn, width)
    ensures var g := WithPicks(t, node, picks);
      && Expands(before, g, fn, width, t[node].depth + 1) && SameDepths(t, g)
      && AtDepth(g, Added(|t|, |picks|), t[node].depth + 1)
      && PathTokens(g, node) == PathTokens(t, node)
  {
    hide WellFormed, PathTokens, Expands;
    if picks != [] {
      var front, pick := picks[..|picks| - 1], picks[|picks| - 1];
      PicksExpand(before, t, fn, width, node, front);
      var s := WithPicks(t, node, front);
      assert pick == picks[|picks| - 1];
      ExpandsMore(before, s, fn, width, t[node].depth + 1, node, pick);
      TokensStay(s, node, pick.0, pick.1, node);
      var g := WithPicks(t, node, picks);
      var children := Added(|t|, |picks|);
      forall k | 0 <= k < |children| ensures children[k] < |g| && g[children[k]].depth == t[node].depth + 1 {
        if k < |front| {
          assert Added(|t|, |front|)[k] == children[k];
        }
      }
    }
  }

  lemma {:induction false} LevelExpands(before: Tree, t: Tree, frontier: seq<nat>, fn: Proposer, width: int, depth: nat)
    requires WellFormed(t) && Expands(before, t, fn, width, depth + 1) && AtDepth(t, frontier, depth)
    ensures var (g, next) := Level(t, frontier, fn, width);
      Expands(before, g, fn, width, depth + 1) && AtDepth(g, next, depth + 1) && SameDepths(t, g)
  {
    hide WellFormed, PathTokens, Expands, Picks;
    if frontier != [] {
      var front, node := frontier[..|frontier| - 1], frontier[|frontier| - 1];
      LevelExpands(before, t, front, fn, width, depth);
      var (s, next) := Level(t, front, fn, width);
      var picks := Picks(s, node, fn, width);
      assert forall k :: 0 <= k < |picks| ==> picks[k] in picks;
      PicksExpand(before, s, fn, width, node, picks);
    }
  }

  lemma {:induction false} LevelsExpand(before: Tree, t: Tree, frontier: seq<nat>, fn: Proposer, width: int,
      level: nat, depth: nat)
    requires WellFormed(t) && Expands(before, t, fn, width, level) && AtDepth(t, frontier, level)
    ensures Expands(before, Levels(t, frontier, fn, width, depth), fn, width, level + depth)
    decreases depth
  {
    hide WellFormed, PathTokens, Expands, Level;
    if depth == 0 || frontier == [] {
      ExpandsDeeper(before, t, fn, width, level, level + depth);
    } else {
      ExpandsDeeper(before, t, fn, width, level, level + 1);
      LevelExpands(before, t, frontier, fn, width, level);
      var (s, next) := Level(t, frontier, fn, width);
      LevelsExpand(before, s, next, fn, width, level + 1, depth - 1);
    }
  }

  /** Every node breadth-first expansion adds is one of the first `width` proposals of the draft
      model after its parent's path, at most `depth` levels down; older nodes only gain children. */
  lemma ExpansionAdds(t: Tree, fn: Proposer, width: int, depth: nat)
    requires WellFormed(t)
    ensures Expands(t, Levels(t, [0], fn, width, depth), fn, width, depth)
  {
    LevelsExpand(t, t, [0], fn, width, 0, depth);
  }

  // ----- the expansion loops -----

  method ExpandNode(tree: DraftTree, node: nat, fn: Proposer, width: int) returns (children: seq<nat>)
    requires tree.Valid() && node < |tree.nodes|
    modifies tree
    ensures tree.Valid() && |children| == |old(Picks(tree.nodes, node, fn, width))|
    ensures tree.nodes == WithPicks(old(tree.nodes), node, old(Picks(tree.nodes, node, fn, width)))
    ensures children == Added(|old(tree.nodes)|, |children|)
  {
    hide WellFormed, PathTokens;
    ghost var start := tree.nodes;
    var tokens := TokensTo(tree, node);
    var all := fn(tokens);
    var picks := all[..Sliced(|all|, width)];
    children := [];
    for k := 0 to |picks|
      invariant tree.Valid() && tree.nodes == WithPicks(start, node, picks[..k])
      invariant children == Added(|start|, k)
    {
      assert picks[..k + 1][..k] == picks[..k];
      var idx := tree.Add(node, picks[k].0, picks[k].1);
      children := children + [idx.value];
    }
    assert picks[..|picks|] == picks;
  }

  method ExpandGreedy(tree: DraftTree, fn: Proposer, width: int, depth: nat)
    requires tree.Valid()
    modifies tree
    ensures tree.Valid() && |old(tree.nodes)| > 0
    ensures tree.nodes == Levels(old(tree.nodes), [0], fn, width, depth)
  {
    hide WellFormed, Picks;
    RootFirst(tree.nodes);
    var frontier: seq<nat> := [0];
    for level := 0 to depth
      invariant tree.Valid() && Below(frontier, |tree.nodes|)
      invariant Levels(tree.nodes, frontier, fn, width, depth - level)
             == Levels(old(tree.nodes), [0], fn, width, depth)
    {
      ghost var start := tree.nodes;
      var next: seq<nat> := [];
      for k := 0 to |frontier|
        invariant tree.Valid() && |tree.nodes| >= |start|
        invariant (tree.nodes, next) == Level(start, frontier[..k], fn, width)
      {
        assert frontier[..k + 1][..k] == frontier[..k];
        var children := ExpandNode(tree, frontier[k], fn, width);
        next := next + children;
      }
      assert frontier[..|frontier|] == frontier;
      frontier := next;
      if frontier == [] {
        break;
      }
    }
  }

  /** A tree grown from its root by a model that proposes probabilities can be pruned to any
      limit without orphaning a node. */
  lemma ExpandedPrunes(token: int, fn: Proposer, width: int, depth: nat, maxNodes: int)
    requires forall path: seq<int>, pick :: pick in fn(path) ==> 0.0 <= pick.1 <= 1.0
    ensures WellFormed(Root(token))
    ensures var t := Levels(Root(token), [0], fn, width, depth);
      NoOrphan(t, maxNodes) && |Prune(t, maxNodes).tree| == Max(1, Sliced(|t|, maxNodes))
  {
    hide WellFormed, NoOrphan, Prune, PathTokens, Levels;
    RootIsWellFormed(token);
    var t := Levels(Root(token), [0], fn, width, depth);
    ExpansionAdds(Root(token), fn, width, depth);
    forall i | 0 < i < |t| ensures 0.0 <= t[i].prob <= 1.0 {
      assert Proposed(t, fn, width, i);
      var pick := (t[i].token, t[i].prob);
      assert pick in fn(PathTokens(t, Parent(t, i)));
    }
    ProbabilitiesKeepBranches(t, maxNodes);
    PrunedSize(t, maxNodes);
  }
}
