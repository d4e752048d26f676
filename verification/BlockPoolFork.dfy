/** Sharing and releasing whole sequences. */
module BlockPoolFork {
  import opened Prelude
  import opened BlockPool
  import opened BlockPoolInvariant
  import opened BlockPoolSteps

  // ----- fork -----

  lemma {:induction false} RetainAt(blocks: seq<Block>, ids: seq<nat>, b: nat)
    requires NoDup(ids) && (forall i :: 0 <= i < |ids| ==> ids[i] < |blocks|) && b < |blocks|
    ensures Retain(blocks, ids)[b] ==
      if b in ids then blocks[b].(refCount := blocks[b].refCount + 1) else blocks[b]
    decreases |ids|
  {
    if ids != [] {
      var h := blocks[ids[0]];
      assert ids == [ids[0]] + ids[1..];
      RetainAt(blocks[ids[0] := h.(refCount := h.refCount + 1)], ids[1..], b);
    }
  }

  lemma RetainAll(blocks: seq<Block>, ids: seq<nat>)
    requires NoDup(ids) && forall i :: 0 <= i < |ids| ==> ids[i] < |blocks|
    ensures forall b: nat | b < |blocks| ::
      Retain(blocks, ids)[b] == if b in ids then blocks[b].(refCount := blocks[b].refCount + 1) else blocks[b]
  {
    forall b: nat | b < |blocks|
      ensures Retain(blocks, ids)[b] ==
        if b in ids then blocks[b].(refCount := blocks[b].refCount + 1) else blocks[b]
    {
      RetainAt(blocks, ids, b);
    }
  }

  /** The child's id is free to use: unknown, or naming a table without blocks. */
  predicate FreshChild(c: Cache, child: SeqId) {
    child in c.tables ==> c.tables[child].blocks == []
  }

  lemma ForkedTables(c: Cache, parent: SeqId, child: SeqId)
    requires Shape(c) && TablesOk(c) && parent in c.tables
    ensures var c' := Fork(c, parent, child).cache;
      Shape(c') && TablesOk(c') && View(c') == View(c)[child := View(c)[parent]]
  {
    var c' := Fork(c, parent, child).cache;
    var p := c.tables[parent];
    TableNoDup(c, p.blocks);
    RetainAll(c.blocks, p.blocks);
    IdsFrame(c, c', p.blocks);
    TablesUpdate(c, c', child, p);
  }

  lemma ForkedCounts(c: Cache, parent: SeqId, child: SeqId)
    requires Shape(c) && TablesOk(c) && RefOk(c) && parent in c.tables
    ensures RefOk(Fork(c, parent, child).cache) <==> FreshChild(c, child)
  {
    var c' := Fork(c, parent, child).cache;
    var p := c.tables[parent];
    TableNoDup(c, p.blocks);
    RetainAll(c.blocks, p.blocks);
    if FreshChild(c, child) {
      forall b: nat | b < |c.blocks| ensures c'.blocks[b].refCount == |Users(c'.tables, b)| {
        UsersAdd(c.tables, child, p, b);
        assert child !in Users(c.tables, b);
      }
    } else {
      var b := c.tables[child].blocks[0];
      UsersAdd(c.tables, child, p, b);
      assert child in Users(c.tables, b);
      assert c'.blocks[b].refCount != |Users(c'.tables, b)|;
    }
  }

  lemma ForkedHashes(c: Cache, parent: SeqId, child: SeqId)
    requires Inv(c) && parent in c.tables
    ensures var c' := Fork(c, parent, child).cache;
      FreeOk(c', {}) && IndexOk(c') && HashOk(c')
  {
    var c' := Fork(c, parent, child).cache;
    var p := c.tables[parent];
    TableNoDup(c, p.blocks);
    RetainAll(c.blocks, p.blocks);
    forall b: nat | b < |c.blocks|
      ensures Hashed(c', b) && (b in p.blocks ==> c.blocks[b].refCount > 0)
    {
      assert Hashed(c, b);
      UserCounts(c.tables, parent, b);
    }
  }

  /** The child reads what the parent reads and nobody else is affected. The pool's
      accounting survives exactly when the child's id was free to use: overwriting a
      live table leaks its references. */
  lemma ForkKeeps(c: Cache, parent: SeqId, child: SeqId)
    requires Inv(c)
    ensures var r := Fork(c, parent, child);
      && (r.SequenceNotFound? <==> parent !in c.tables)
      && (r.Done? <==> parent in c.tables)
      && (r.Done? ==> (Inv(r.cache) <==> FreshChild(c, child)))
      && (r.Done? ==> Limits(c, r.cache) && View(r.cache) == View(c)[child := View(c)[parent]])
  {
    if parent in c.tables {
      ForkedTables(c, parent, child);
      ForkedCounts(c, parent, child);
      ForkedHashes(c, parent, child);
    }
  }

  // ----- free -----

  /** A block after one of its references, if any, is dropped. */
  function Dropped(b: Block, named: bool): Block {
    if !named then b
    else if b.refCount == 1 && b.contentHash.None? then b.(refCount := 0, numTokens := 0)
    else b.(refCount := b.refCount - 1)
  }

  ghost predicate CanRelease(c: Cache, ids: seq<nat>) {
    && Shape(c) && InPool(c, ids) && NoDup(ids) && NoDup(c.free)
    && (forall i :: 0 <= i < |ids| ==> c.blocks[ids[i]].refCount > 0 && ids[i] !in c.free)
  }

  ghost predicate Unlists(c: Cache, ids: seq<nat>, b: nat) {
    b < |c.blocks| && b in ids && c.blocks[b].refCount == 1 && c.blocks[b].contentHash.None?
  }

  /** Releasing the blocks of a table never lets a reference count underflow, and does to
      each block exactly what dropping one reference should. */
  lemma ReleaseAll(c: Cache, ids: seq<nat>)
    requires CanRelease(c, ids)
    ensures var r := Release(c, ids);
      && r == c.(blocks := r.blocks, free := r.free) && |r.blocks| == |c.blocks|
      && (forall b: nat | b < |c.blocks| :: r.blocks[b] == Dropped(c.blocks[b], b in ids))
      && NoDup(r.free) && |r.free| >= |c.free|
      && (forall b: nat | b < |c.blocks| :: b in r.free <==> b in c.free || Unlists(c, ids, b))
  {
    ReleaseBlocks(c, ids);
    forall b: nat | b < |c.blocks| ensures b in Release(c, ids).free <==> b in c.free || Unlists(c, ids, b) {
      ReleaseFree(c, ids, b);
    }
  }

  lemma {:induction false} ReleaseBlocks(c: Cache, ids: seq<nat>)
    requires CanRelease(c, ids)
    ensures var r := Release(c, ids);
      && r == c.(blocks := r.blocks, free := r.free) && |r.blocks| == |c.blocks|
      && (forall b: nat | b < |c.blocks| :: r.blocks[b] == Dropped(c.blocks[b], b in ids))
      && NoDup(r.free) && |r.free| >= |c.free|
    decreases |ids|
  {
    if ids != [] {
      var c1 := ReleaseStep(c, ids);
      ReleaseBlocks(c1, ids[1..]);
      assert ids == [ids[0]] + ids[1..];
    }
  }

  lemma {:induction false} ReleaseFree(c: Cache, ids: seq<nat>, b: nat)
    requires CanRelease(c, ids) && b < |c.blocks|
    ensures b in Release(c, ids).free <==> b in c.free || Unlists(c, ids, b)
    decreases |ids|
  {
    if ids != [] {
      var c1 := ReleaseStep(c, ids);
      ReleaseFree(c1, ids[1..], b);
      assert ids == [ids[0]] + ids[1..];
    }
  }

  lemma ReleaseStep(c: Cache, ids: seq<nat>) returns (c1: Cache)
    requires CanRelease(c, ids) && ids != []
    ensures CanRelease(c1, ids[1..]) && Release(c, ids) == Release(c1, ids[1..])
    ensures c1 == c.(blocks := c.blocks[ids[0] := Dropped(c.blocks[ids[0]], true)], free := c1.free)
    ensures c1.free == if c.blocks[ids[0]].refCount == 1 && c.blocks[ids[0]].contentHash.None?
                       then c.free + [ids[0]] else c.free
  {
    var b := c.blocks[ids[0]];
    c1 := c.(blocks := c.blocks[ids[0] := Dropped(b, true)],
             free := if b.refCount == 1 && b.contentHash.None? then c.free + [ids[0]] else c.free);
  }

  /** How many of the listed blocks lose their last reference and hold nothing cached. */
  function Returned(blocks: seq<Block>, ids: seq<nat>): nat {
    if ids == [] then 0
    else
      (if ids[0] < |blocks| && blocks[ids[0]].refCount == 1 && blocks[ids[0]].contentHash.None? then 1 else 0)
      + Returned(blocks, ids[1..])
  }

  lemma {:induction false} ReturnedAgrees(blocks: seq<Block>, blocks': seq<Block>, ids: seq<nat>)
    requires |blocks| == |blocks'|
    requires forall i :: 0 <= i < |ids| && ids[i] < |blocks| ==> blocks'[ids[i]] == blocks[ids[i]]
    ensures Returned(blocks', ids) == Returned(blocks, ids)
  {
    if ids != [] {
      ReturnedAgrees(blocks, blocks', ids[1..]);
    }
  }

  /** The free list grows by just those blocks. */
  lemma {:induction false} ReleaseCount(c: Cache, ids: seq<nat>)
    requires CanRelease(c, ids)
    ensures |Release(c, ids).free| == |c.free| + Returned(c.blocks, ids)
    decreases |ids|
  {
    hide Shape;
    if ids != [] {
      var c1 := ReleaseStep(c, ids);
      ReleaseCount(c1, ids[1..]);
      assert forall i :: 0 <= i < |ids[1..]| ==> ids[1..][i] == ids[i + 1] != ids[0];
      ReturnedAgrees(c.blocks, c1.blocks, ids[1..]);
    }
  }

  lemma TableReleasable(c: Cache, s: SeqId)
    requires Inv(c) && s in c.tables
    ensures CanRelease(c.(tables := c.tables - {s}), c.tables[s].blocks)
  {
    var ids := c.tables[s].blocks;
    TableNoDup(c, ids);
    forall i | 0 <= i < |ids| ensures c.blocks[ids[i]].refCount > 0 {
      UserCounts(c.tables, s, ids[i]);
    }
  }

  lemma FreedTables(c: Cache, s: SeqId)
    requires Inv(c) && s in c.tables
    ensures var c' := Free(c, s);
      TablesOk(c') && View(c') == View(c) - {s}
  {
    var c' := Free(c, s);
    TableReleasable(c, s);
    ReleaseAll(c.(tables := c.tables - {s}), c.tables[s].blocks);
    forall s' | s' in c'.tables
      ensures IdsOk(c', c.tables[s'].blocks)
        && Read(c'.store, c.tables[s'].blocks) == Read(c.store, c.tables[s'].blocks)
    {
      FreedFrame(c, c', s, s');
      IdsFrame(c, c', c.tables[s'].blocks);
    }
  }

  /** A block that goes back to the free list is in no other table. */
  lemma FreedFrame(c: Cache, c': Cache, s: SeqId, s': SeqId)
    requires Inv(c) && s in c.tables && s' in c.tables && s' != s
    requires c'.blockSize == c.blockSize && |c'.blocks| == |c.blocks| && c'.store == c.store
    requires forall b: nat | b < |c.blocks| :: c'.blocks[b] == Dropped(c.blocks[b], b in c.tables[s].blocks)
    ensures Undisturbed(c, c', c.tables[s'].blocks)
  {
    var ids := c.tables[s'].blocks;
    forall i | 0 <= i < |ids| ensures c'.blocks[ids[i]].numTokens == c.blocks[ids[i]].numTokens {
      if ids[i] in c.tables[s].blocks && c.blocks[ids[i]].refCount == 1 {
        SoleUser(c, s, s', ids[i]);
        assert false;
      }
    }
  }

  lemma FreedCounts(c: Cache, s: SeqId)
    requires Inv(c) && s in c.tables
    ensures RefOk(Free(c, s))
  {
    hide Release, IdsOk, Read, HashOk, IndexOk;
    var c' := Free(c, s);
    TableReleasable(c, s);
    ReleaseAll(c.(tables := c.tables - {s}), c.tables[s].blocks);
    forall b: nat | b < |c.blocks| ensures c'.blocks[b].refCount == |Users(c'.tables, b)| {
      UsersDrop(c.tables, s, b);
      UserCounts(c.tables, s, b);
      assert s in Users(c.tables, b) <==> b in c.tables[s].blocks;
    }
  }

  lemma FreedHashes(c: Cache, s: SeqId)
    requires Inv(c) && s in c.tables
    ensures var c' := Free(c, s);
      FreeOk(c', {}) && IndexOk(c') && HashOk(c')
  {
    hide Release, IdsOk, Read;
    var c' := Free(c, s);
    TableReleasable(c, s);
    ReleaseAll(c.(tables := c.tables - {s}), c.tables[s].blocks);
    forall b: nat | b < |c.blocks|
      ensures Hashed(c', b) && (b in c.tables[s].blocks ==> c.blocks[b].refCount > 0)
    {
      assert Hashed(c, b);
      UserCounts(c.tables, s, b);
    }
  }

  /** Freeing a sequence removes it from the abstract cache and affects no other; the pool gets
      back exactly the blocks nobody else names and nothing cached is in. Freeing an unknown one
      changes nothing, so freeing twice is harmless. */
  lemma FreeKeeps(c: Cache, s: SeqId)
    requires Inv(c)
    ensures Inv(Free(c, s)) && Limits(c, Free(c, s)) && View(Free(c, s)) == View(c) - {s}
    ensures |Free(c, s).free| == |c.free| + if s in c.tables then Returned(c.blocks, c.tables[s].blocks) else 0
    ensures Free(Free(c, s), s) == Free(c, s)
  {
    hide Read, Release, Returned;
    if s in c.tables {
      FreedTables(c, s);
      FreedCounts(c, s);
      FreedHashes(c, s);
      TableReleasable(c, s);
      ReleaseAll(c.(tables := c.tables - {s}), c.tables[s].blocks);
      ReleaseCount(c.(tables := c.tables - {s}), c.tables[s].blocks);
    } else {
      assert View(c) - {s} == View(c);
    }
  }
}
