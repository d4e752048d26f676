/** Taking a block, filling one, sharing one: each elementary step keeps the invariant. */
module BlockPoolSteps {
  import opened Prelude
  import opened BlockPool
  import opened BlockPoolInvariant

  // ----- reading -----

  lemma {:induction false} ReadAgrees(store: seq<Slots>, store': seq<Slots>, ids: seq<nat>)
    requires |store| == |store'|
    requires forall i :: 0 <= i < |ids| ==> ids[i] < |store| ==> store[ids[i]].tokens == store'[ids[i]].tokens
    ensures Read(store, ids) == Read(store', ids)
  {
    if ids != [] {
      ReadAgrees(store, store', ids[..|ids| - 1]);
    }
  }

  lemma ReadSnoc(store: seq<Slots>, ids: seq<nat>, b: nat)
    requires b < |store|
    ensures Read(store, ids + [b]) == Read(store, ids) + store[b].tokens
  {
    assert (ids + [b])[..|ids|] == ids;
  }

  /** Blocks before the last hold blockSize tokens each. */
  lemma {:induction false} ReadLength(c: Cache, ids: seq<nat>, i: nat)
    requires IdsOk(c, ids) && i <= |ids|
    ensures i < |ids| ==> |Read(c.store, ids[..i])| == i * c.blockSize
    ensures i > 0 ==> ids[i - 1] < |c.blocks|
    ensures i == |ids| > 0 ==>
      |Read(c.store, ids)| == (i - 1) * c.blockSize + c.blocks[ids[i - 1]].numTokens
  {
    if i > 0 {
      ReadLength(c, ids, i - 1);
      assert EntryOk(c, ids, i - 1);
      assert ids[..i][..i - 1] == ids[..i - 1];
      if i == |ids| {
        assert ids[..i] == ids;
      }
      assert i * c.blockSize == (i - 1) * c.blockSize + c.blockSize;
    }
  }

  /** No table names a block twice. */
  lemma TableNoDup(c: Cache, ids: seq<nat>)
    requires c.blockSize > 0 && IdsOk(c, ids)
    ensures NoDup(ids)
  {
    forall i, j | 0 <= i < j < |ids| ensures ids[i] != ids[j] {
      assert EntryOk(c, ids, i) && EntryOk(c, ids, j);
      ReadLength(c, ids, i);
      ReadLength(c, ids, j);
      assert (j - i) * c.blockSize >= c.blockSize by { MulAtLeast(j - i, c.blockSize); }
      MulSub(j, i, c.blockSize);
    }
  }

  /** A table has ceil(numTokens / blockSize) blocks, and its last block is full
      exactly when the token count is a multiple of the block size. */
  lemma TableSize(c: Cache, ids: seq<nat>)
    requires c.blockSize > 0 && IdsOk(c, ids)
    ensures |ids| == CeilDiv(|Read(c.store, ids)|, c.blockSize)
    ensures ids != [] ==> ids[|ids| - 1] < |c.blocks|
    ensures ids != [] ==>
      (|Read(c.store, ids)| % c.blockSize == 0 <==> c.blocks[ids[|ids| - 1]].numTokens == c.blockSize)
    ensures ids == [] ==> |Read(c.store, ids)| % c.blockSize == 0
  {
    ReadLength(c, ids, |ids|);
    if ids == [] {
      CeilDivStep(1, c.blockSize);
      DivModOf(0, 0, c.blockSize, 0);
    } else {
      assert EntryOk(c, ids, |ids| - 1);
      CeilDivOf(|Read(c.store, ids)|, |ids| - 1, c.blockSize, c.blocks[ids[|ids| - 1]].numTokens);
    }
  }

  /** Changing blocks a table does not name leaves the table as it was. */
  lemma IdsFrame(c: Cache, c': Cache, ids: seq<nat>)
    requires IdsOk(c, ids) && Undisturbed(c, c', ids)
    ensures IdsOk(c', ids) && Read(c'.store, ids) == Read(c.store, ids)
  {
    ReadAgrees(c.store, c'.store, ids);
    forall i: nat | i < |ids| ensures EntryOk(c', ids, i) {
      assert EntryOk(c, ids, i);
      ReadAgrees(c.store, c'.store, ids[..i]);
    }
  }

  lemma TablesUpdate(c: Cache, c': Cache, s: SeqId, t: Table)
    requires TablesOk(c) && Retabled(c, c', s, t)
    ensures TablesOk(c') && View(c') == View(c)[s := Read(c'.store, t.blocks)]
  {
    TablesUpdateOk(c, c', s, t);
    ViewUpdate(c, c', s, t);
  }

  lemma ViewUpdate(c: Cache, c': Cache, s: SeqId, t: Table)
    requires Retabled(c, c', s, t)
    ensures View(c') == View(c)[s := Read(c'.store, t.blocks)]
  {
    forall s' | s' in c.tables && s' != s
      ensures Read(c'.store, c'.tables[s'].blocks) == Read(c.store, c.tables[s'].blocks)
    {
      ReadAgrees(c.store, c'.store, c.tables[s'].blocks);
    }
  }

  lemma TablesUpdateOk(c: Cache, c': Cache, s: SeqId, t: Table)
    requires TablesOk(c) && Retabled(c, c', s, t)
    ensures TablesOk(c')
  {
    forall s' | s' in c'.tables && s' != s
      ensures IdsOk(c', c'.tables[s'].blocks)
      ensures c'.tables[s'].numTokens == |Read(c'.store, c'.tables[s'].blocks)|
    {
      IdsFrame(c, c', c.tables[s'].blocks);
    }
  }

  // ----- counting -----

  lemma UsersAdd(tables: map<SeqId, Table>, s: SeqId, t: Table, b: nat)
    ensures Users(tables[s := t], b) ==
      if b in t.blocks then Users(tables, b) + {s} else Users(tables, b) - {s}
  {
  }

  lemma UsersDrop(tables: map<SeqId, Table>, s: SeqId, b: nat)
    ensures Users(tables - {s}, b) == Users(tables, b) - {s}
  {
  }

  /** A block two tables name is counted at least twice. */
  lemma SoleUser(c: Cache, s: SeqId, s': SeqId, b: nat)
    requires Shape(c) && RefOk(c)
    requires s in c.tables && s' in c.tables && b in c.tables[s].blocks && b in c.tables[s'].blocks
    requires c.blocks[b].refCount <= 1
    ensures s == s'
  {
    assert s in Users(c.tables, b) && s' in Users(c.tables, b);
    if s != s' {
      assert {s, s'} <= Users(c.tables, b);
      SubsetSize({s, s'}, Users(c.tables, b));
    }
  }

  lemma UserCounts(tables: map<SeqId, Table>, s: SeqId, b: nat)
    ensures s in tables && b in tables[s].blocks ==> s in Users(tables, b) && |Users(tables, b)| > 0
  {
  }

  lemma UnusedBlock(c: Cache, b: nat)
    requires Shape(c) && RefOk(c) && b < |c.blocks| && c.blocks[b].refCount == 0
    ensures forall s | s in c.tables :: b !in c.tables[s].blocks
  {
    forall s | s in c.tables ensures b !in c.tables[s].blocks {
      UserCounts(c.tables, s, b);
    }
  }

  // ----- taking a block -----

  /** Eviction takes the least recently used evictable block, the lowest id on a tie,
      and finds one whenever there is one. */
  lemma {:induction false} LruIsLeast(blocks: seq<Block>, n: nat)
    requires n <= |blocks|
    ensures Lru(blocks, n).None? <==> forall b: nat | b < n :: !Evictable(blocks[b])
    ensures Lru(blocks, n).Some? ==>
      var v := Lru(blocks, n).value;
      forall b: nat | b < n && Evictable(blocks[b]) ::
        blocks[v].lastUsed < blocks[b].lastUsed || (blocks[v].lastUsed == blocks[b].lastUsed && v <= b)
  {
    if n > 0 {
      LruIsLeast(blocks, n - 1);
    }
  }

  function Elems(s: seq<nat>): set<nat> {
    set x | x in s
  }

  lemma {:induction false} ElemsSize(s: seq<nat>)
    requires NoDup(s)
    ensures |Elems(s)| == |s|
  {
    if s != [] {
      var r, x := s[..|s| - 1], s[|s| - 1];
      assert s == r + [x];
      ElemsSize(r);
      assert Elems(s) == Elems(r) + {x};
    }
  }

  /** The free list and the evictable blocks partition the unpinned blocks. */
  lemma AvailableIsUnpinned(c: Cache, loose: set<nat>)
    requires InvExcept(c, loose)
    requires forall b | b in loose :: b < |c.blocks| && c.blocks[b].refCount == 0
    ensures Available(c) == |Unpinned(c)| - |loose|
  {
    var f := Elems(c.free);
    ElemsSize(c.free);
    assert Unpinned(c) == f + EvictableBlocks(c) + loose;
    assert f !! EvictableBlocks(c) && loose !! (f + EvictableBlocks(c));
  }

  /** `_take_free_block` fails only when nothing is available. What it yields was
      unpinned; no table, and nothing a table reads, is disturbed. */
  lemma TakeKeeps(c: Cache)
    requires Inv(c)
    ensures Take(c).Exhausted? <==> Available(c) == 0
    ensures Take(c).Taken? ==>
      var c1, b := Take(c).cache, Take(c).id;
      && InvExcept(c1, {b})
      && c1 == c.(free := c1.free, index := c1.index, blocks := c1.blocks)
      && |c1.blocks| == |c.blocks|
      && c1.blocks[b].refCount == c.blocks[b].refCount == 0
      && c1.blocks[b].contentHash.None?
      && (forall x: nat | x < |c.blocks| && x != b :: c1.blocks[x] == c.blocks[x])
      && (forall s | s in c.tables :: b !in c.tables[s].blocks)
      && View(c1) == View(c)
  {
    hide TablesOk, IndexOk, HashOk, View, NoDup;
    LruIsLeast(c.blocks, |c.blocks|);
    if Take(c).Exhausted? {
      assert EvictableBlocks(c) == {};
    } else {
      var c1, b := Take(c).cache, Take(c).id;
      if |c.free| > 0 {
        assert b in c.free;
      } else {
        assert b in EvictableBlocks(c);
        assert EvictableBlocks(c) != {};
      }
      UnusedBlock(c, b);
      TakeKeepsTables(c);
      TakeKeepsFree(c);
      TakeKeepsHashes(c);
    }
  }

  lemma TakeKeepsTables(c: Cache)
    requires Inv(c) && Take(c).Taken?
    ensures TablesOk(Take(c).cache) && View(Take(c).cache) == View(c)
  {
    hide RefOk, HashOk, Read, IdsOk, Lru;
    LruIsLeast(c.blocks, |c.blocks|);
    var c1, b := Take(c).cache, Take(c).id;
    assert |c.free| > 0 ==> b in c.free;
    UnusedBlock(c, b);
    forall s | s in c.tables
      ensures IdsOk(c1, c.tables[s].blocks)
      ensures Read(c1.store, c.tables[s].blocks) == Read(c.store, c.tables[s].blocks)
    {
      IdsFrame(c, c1, c.tables[s].blocks);
    }
  }

  lemma TakeKeepsFree(c: Cache)
    requires Inv(c) && Take(c).Taken?
    ensures FreeOk(Take(c).cache, {Take(c).id})
  {
    if |c.free| > 0 {
      DropLast(c.free);
    }
  }

  lemma TakeKeepsHashes(c: Cache)
    requires Inv(c) && Take(c).Taken?
    ensures IndexOk(Take(c).cache) && HashOk(Take(c).cache)
  {
    var c1, b := Take(c).cache, Take(c).id;
    forall x: nat | x < |c1.blocks| ensures Hashed(c1, x) {
      assert Hashed(c, x);
    }
    if |c.free| == 0 {
      forall h | h in c1.index ensures c1.index[h] != b {
        assert h in c.index;
      }
    }
  }

  // ----- adding a block to a table -----

  lemma AppendEntry(c: Cache, ids: seq<nat>, b: nat)
    requires c.blockSize > 0 && IdsOk(c, ids) && AllFull(c, ids) && b < |c.blocks| == |c.store|
    requires c.store[b].context == Read(c.store, ids)
    requires 1 <= |c.store[b].tokens| == c.blocks[b].numTokens <= c.blockSize
    ensures IdsOk(c, ids + [b]) && Read(c.store, ids + [b]) == Read(c.store, ids) + c.store[b].tokens
  {
    ReadSnoc(c.store, ids, b);
    var ids' := ids + [b];
    forall i: nat | i < |ids'| ensures EntryOk(c, ids', i) {
      if i < |ids| {
        assert EntryOk(c, ids, i);
        assert ids'[..i] == ids[..i];
      } else {
        assert ids'[..i] == ids;
      }
    }
  }

  lemma PlacedKeeps(c: Cache, s: SeqId, b: nat, blk: Block, chunk: seq<Token>, t: Table)
    requires CanPlace(c, s, b, blk, chunk, t)
    ensures var c' := Placed(c, s, b, blk, chunk, t);
      && Inv(c') && View(c') == View(c)[s := View(c)[s] + chunk]
      && (|chunk| == c.blockSize ==> AllFull(c', t.blocks))
      && Unpinned(c') == Unpinned(c) - {b}
  {
    hide FreeOk, IndexOk, HashOk, TablesOk, Read;
    PlacedTables(c, s, b, blk, chunk, t);
    PlacedCounts(c, s, b, blk, t);
    PlacedHashes(c, s, b, blk, chunk, t);
  }

  lemma PlacedTables(c: Cache, s: SeqId, b: nat, blk: Block, chunk: seq<Token>, t: Table)
    requires CanPlace(c, s, b, blk, chunk, t)
    ensures var c' := Placed(c, s, b, blk, chunk, t);
      && Shape(c') && TablesOk(c') && View(c') == View(c)[s := View(c)[s] + chunk]
  {
    var c' := Placed(c, s, b, blk, chunk, t);
    PlacedTable(c, s, b, blk, chunk, t);
    PlacedShape(c, s, b, blk, chunk, t);
    TablesUpdate(c, c', s, t);
  }

  lemma PlacedShape(c: Cache, s: SeqId, b: nat, blk: Block, chunk: seq<Token>, t: Table)
    requires Shape(c) && s in c.tables && b < |c.blocks| && t.blocks == c.tables[s].blocks + [b]
    ensures Shape(Placed(c, s, b, blk, chunk, t))
  {
  }

  lemma PlacedTable(c: Cache, s: SeqId, b: nat, blk: Block, chunk: seq<Token>, t: Table)
    requires CanPlace(c, s, b, blk, chunk, t)
    ensures var c' := Placed(c, s, b, blk, chunk, t);
      && Retabled(c, c', s, t) && Read(c'.store, t.blocks) == View(c)[s] + chunk
  {
    var c' := Placed(c, s, b, blk, chunk, t);
    var ids := c.tables[s].blocks;
    UnusedBlock(c, b);
    IdsFrame(c, c', ids);
    AppendEntry(c', ids, b);
  }

  lemma PlacedHashes(c: Cache, s: SeqId, b: nat, blk: Block, chunk: seq<Token>, t: Table)
    requires CanPlace(c, s, b, blk, chunk, t)
    ensures var c' := Placed(c, s, b, blk, chunk, t);
      FreeOk(c', {}) && IndexOk(c') && HashOk(c')
  {
    var c' := Placed(c, s, b, blk, chunk, t);
    forall x: nat | x < |c'.blocks| ensures Hashed(c', x) {
      assert Hashed(c, x);
    }
  }

  lemma PlacedCounts(c: Cache, s: SeqId, b: nat, blk: Block, t: Table)
    requires Shape(c) && RefOk(c) && s in c.tables && b < |c.blocks|
    requires c.blocks[b].refCount == 0 && blk.refCount == 1
    requires t.blocks == c.tables[s].blocks + [b]
    ensures RefOk(c.(blocks := c.blocks[b := blk], tables := c.tables[s := t]))
  {
    var c' := c.(blocks := c.blocks[b := blk], tables := c.tables[s := t]);
    UnusedBlock(c, b);
    forall x: nat | x < |c'.blocks| ensures c'.blocks[x].refCount == |Users(c'.tables, x)| {
      UsersAdd(c.tables, s, t, x);
      if x == b {
        assert Users(c.tables, b) == {};
        assert Users(c'.tables, b) == {s};
      } else {
        assert Users(c'.tables, x) == Users(c.tables, x);
      }
    }
  }

  lemma SharedKeeps(c: Cache, s: SeqId, b: nat, t: Table)
    requires CanShare(c, s, b, t)
    ensures var c' := Shared(c, s, b, t);
      && Inv(c') && AllFull(c', t.blocks)
      && View(c') == View(c)[s := View(c)[s] + c.blocks[b].contentHash.value.chunk]
      && Unpinned(c') == Unpinned(c) - {b}
  {
    SharedTables(c, s, b, t);
    SharedCounts(c, s, b, t);
    SharedHashes(c, s, b, t);
  }

  lemma SharedTables(c: Cache, s: SeqId, b: nat, t: Table)
    requires CanShare(c, s, b, t)
    ensures var c' := Shared(c, s, b, t);
      && Shape(c') && TablesOk(c') && AllFull(c', t.blocks)
      && View(c') == View(c)[s := View(c)[s] + c.blocks[b].contentHash.value.chunk]
  {
    hide FreeOk, RefOk, IndexOk, IdsOk, Read;
    var c' := Shared(c, s, b, t);
    var ids := c.tables[s].blocks;
    assert Hashed(c, b);
    assert Shape(c');
    IdsFrame(c, c', ids);
    AppendEntry(c', ids, b);
    TablesUpdate(c, c', s, t);
  }

  lemma SharedHashes(c: Cache, s: SeqId, b: nat, t: Table)
    requires CanShare(c, s, b, t)
    ensures var c' := Shared(c, s, b, t);
      FreeOk(c', {}) && IndexOk(c') && HashOk(c')
  {
    var c' := Shared(c, s, b, t);
    forall x: nat | x < |c'.blocks| ensures Hashed(c', x) {
      assert Hashed(c, x);
    }
    assert c.blocks[b].refCount == |Users(c.tables, b)|;
  }

  /** The context of block i of a table falls short of what a full table reads. */
  lemma ContextIsShorter(c: Cache, ids: seq<nat>, i: nat)
    requires c.blockSize > 0 && IdsOk(c, ids) && AllFull(c, ids) && i < |ids|
    ensures |Read(c.store, ids[..i])| < |Read(c.store, ids)|
  {
    ReadLength(c, ids, i);
    ReadLength(c, ids, |ids|);
    assert |ids| * c.blockSize == (|ids| - 1) * c.blockSize + c.blockSize;
    MulAtLeast(|ids| - i, c.blockSize);
    MulSub(|ids|, i, c.blockSize);
  }

  /** A block whose context is everything the table reads is not yet in the table. */
  lemma NotYetIn(c: Cache, ids: seq<nat>, b: nat)
    requires c.blockSize > 0 && IdsOk(c, ids) && AllFull(c, ids) && b < |c.blocks| == |c.store|
    requires c.store[b].context == Read(c.store, ids)
    ensures b !in ids
  {
    forall i: nat | i < |ids| ensures ids[i] != b {
      assert EntryOk(c, ids, i);
      ContextIsShorter(c, ids, i);
    }
  }

  lemma SharedCounts(c: Cache, s: SeqId, b: nat, t: Table)
    requires CanShare(c, s, b, t)
    ensures RefOk(Shared(c, s, b, t))
  {
    hide FreeOk, IndexOk, IdsOk, Read;
    var c' := Shared(c, s, b, t);
    assert Hashed(c, b);
    NotYetIn(c, c.tables[s].blocks, b);
    forall x: nat | x < |c'.blocks| ensures c'.blocks[x].refCount == |Users(c'.tables, x)| {
      UsersAdd(c.tables, s, t, x);
      if x != b {
        assert Users(c'.tables, x) == Users(c.tables, x);
      } else {
        assert s !in Users(c.tables, b);
      }
    }
  }
}
