/** A tree of candidate continuations, node 0 its root, and its pruning. */
module DraftTreeModel {
  import opened Prelude
  import opened Ranking

  datatype Node = Node(token: int, parent: Option<nat>, depth: nat, prob: real, children: seq<nat>)

  type Tree = seq<Node>

  function Root(token: int): Tree {
    [Node(token, None, 0, 1.0, [])]
  }

  /** The children of node i among the first n nodes. */
  function ChildrenOf(t: Tree, i: nat, n: nat): seq<nat>
    requires n <= |t|
  {
    if n == 0 then [] else ChildrenOf(t, i, n - 1) + if t[n - 1].parent == Some(i) then [n - 1] else []
  }

  /** Parents come before their children, a level above, and know them in order. */
  ghost predicate WellFormed(t: Tree) {
    && |t| > 0 && t[0].parent.None? && t[0].depth == 0 && t[0].prob == 1.0
    && (forall i :: 0 < i < |t| ==> t[i].parent.Some? && t[i].parent.value < i)
    && (forall i :: 0 < i < |t| ==> t[i].depth == t[t[i].parent.value].depth + 1)
    && (forall i :: 0 <= i < |t| ==> t[i].children == ChildrenOf(t, i, |t|))
  }

  /** A new last node under the parent. */
  function Grown(t: Tree, parent: nat, token: int, prob: real): Tree
    requires parent < |t|
  {
    t[parent := t[parent].(children := t[parent].children + [|t|])]
    + [Node(token, Some(parent), t[parent].depth + 1, prob, [])]
  }

  function Parent(t: Tree, i: nat): (p: nat)
    requires WellFormed(t) && 0 < i < |t|
    ensures p < i
  {
    t[i].parent.value
  }

  /** From the root down to node i. */
  function Path(t: Tree, i: nat): (path: seq<nat>)
    requires WellFormed(t) && i < |t|
    ensures |path| > 0 && path[|path| - 1] == i
    ensures forall k :: 0 <= k < |path| ==> path[k] <= i
  {
    if i == 0 then [0] else Path(t, Parent(t, i)) + [i]
  }

  /** j is i or an ancestor of i. */
  predicate Ancestor(t: Tree, j: nat, i: nat)
    requires WellFormed(t) && i < |t|
  {
    j == i || (i > 0 && Ancestor(t, j, Parent(t, i)))
  }

  /** The product of the probabilities down to node i. */
  function Score(t: Tree, i: nat): real
    requires WellFormed(t) && i < |t|
  {
    if i == 0 then 1.0 else Times(Score(t, Parent(t, i)), t[i].prob)
  }

  function Scores(t: Tree): (s: seq<real>)
    requires WellFormed(t)
    ensures |s| == |t| && forall i :: 0 <= i < |t| ==> s[i] == Score(t, i)
  {
    seq(|t|, i requires 0 <= i < |t| => Score(t, i))
  }

  // ----- pruning -----

  /** How many elements s[:m] has when s has n: a negative m counts from the end. */
  function Sliced(n: nat, m: int): (k: nat)
    ensures k <= n
  {
    if m >= 0 then Min(n, m) else Max(0, n + m)
  }

  /** The best-scored nodes. */
  function Kept(t: Tree, maxNodes: int): seq<nat>
    requires WellFormed(t)
  {
    Ranked(Scores(t))[..Sliced(|t|, maxNodes)]
  }

  /** The tree built so far, and where the nodes kept so far went. */
  datatype Pruning = Pruning(tree: Tree, remap: map<nat, nat>)

  /** Copying the kept nodes with index below n, in order; a node whose parent was not copied
      is dropped. */
  function PruneUpTo(t: Tree, keep: seq<nat>, n: nat): (q: Pruning)
    requires WellFormed(t) && n <= |t|
    ensures |q.tree| > 0 && forall i :: i in q.remap ==> q.remap[i] < |q.tree|
  {
    if n <= 1 then Pruning(Root(t[0].token), map[0 := 0])
    else
      var q, x := PruneUpTo(t, keep, n - 1), n - 1;
      if x in keep && Parent(t, x) in q.remap then
        Pruning(Grown(q.tree, q.remap[Parent(t, x)], t[x].token, t[x].prob), q.remap[x := |q.tree|])
      else q
  }

  function Prune(t: Tree, maxNodes: int): Pruning
    requires WellFormed(t)
  {
    PruneUpTo(t, Kept(t, maxNodes), |t|)
  }
}
