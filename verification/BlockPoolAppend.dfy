/** Decoding: a sequence grows by one token, copying its last block first when it is shared. */
module BlockPoolAppend {
  import opened Prelude
  import opened BlockPool
  import opened BlockPoolInvariant
  import opened BlockPoolSteps
  import opened BlockPoolAllocate

  // ----- writing in place -----

  lemma WrittenTable(c: Cache, s: SeqId, tok: Token)
    requires Inv(c) && Writable(c, s)
    ensures var c' := WriteLast(c, s, tok);
      && Shape(c') && TablesOk(c') && View(c') == View(c)[s := View(c)[s] + [tok]]
  {
    var c' := WriteLast(c, s, tok);
    var ids := c.tables[s].blocks;
    var b := Last(c, s);
    assert EntryOk(c, ids, |ids| - 1);
    WrittenIds(c, c', ids, tok);
    forall s' | s' in c.tables && s' != s ensures Undisturbed(c, c', c.tables[s'].blocks) {
      if b in c.tables[s'].blocks {
        SoleUser(c, s, s', b);
        assert false;
      }
    }
    TablesUpdate(c, c', s, c'.tables[s]);
  }

  /** Stores that agree off the last block of a table agree on what precedes it there. */
  lemma EarlierAgrees(store: seq<Slots>, store': seq<Slots>, ids: seq<nat>, i: nat)
    requires NoDup(ids) && i < |ids| && |store| == |store'|
    requires forall x: nat | x < |store| && x != ids[|ids| - 1] :: store'[x] == store[x]
    ensures Read(store', ids[..i]) == Read(store, ids[..i])
  {
    hide Read;
    ReadAgrees(store, store', ids[..i]);
  }

  lemma WrittenRead(store: seq<Slots>, store': seq<Slots>, ids: seq<nat>, tok: Token)
    requires NoDup(ids) && ids != [] && ids[|ids| - 1] < |store|
    requires var b := ids[|ids| - 1]; store' == store[b := Slots(store[b].context, store[b].tokens + [tok])]
    ensures Read(store', ids) == Read(store, ids) + [tok]
  {
    hide Read;
    var n := |ids| - 1;
    EarlierAgrees(store, store', ids, n);
    assert ids[..n] + [ids[n]] == ids;
    ReadSnoc(store, ids[..n], ids[n]);
    ReadSnoc(store', ids[..n], ids[n]);
    assert Read(store, ids[..n]) + (store[ids[n]].tokens + [tok]) == Read(store, ids) + [tok];
  }

  lemma AllEntries(c: Cache, ids: seq<nat>)
    requires forall i: nat | i < |ids| :: EntryOk(c, ids, i)
    ensures IdsOk(c, ids)
  {
  }

  lemma EntryOf(c: Cache, ids: seq<nat>, i: nat)
    requires IdsOk(c, ids) && i < |ids|
    ensures EntryOk(c, ids, i)
  {
  }

  lemma WrittenIds(c: Cache, c': Cache, ids: seq<nat>, tok: Token)
    requires c.blockSize > 0 && ids != [] && IdsOk(c, ids) && InPool(c, ids) && |c.store| == |c.blocks|
    requires var b := ids[|ids| - 1];
      && c.blocks[b].numTokens < c.blockSize
      && |c'.blocks| == |c.blocks| && c'.blockSize == c.blockSize
      && c'.store == c.store[b := Slots(c.store[b].context, c.store[b].tokens + [tok])]
      && c'.blocks[b].numTokens == c.blocks[b].numTokens + 1
      && forall x: nat | x < |c.blocks| && x != b :: c'.blocks[x] == c.blocks[x]
    ensures IdsOk(c', ids) && Read(c'.store, ids) == Read(c.store, ids) + [tok]
  {
    hide Read, IdsOk;
    TableNoDup(c, ids);
    WrittenRead(c.store, c'.store, ids, tok);
    forall i: nat | i < |ids| ensures EntryOk(c', ids, i) {
      EntryOf(c, ids, i);
      EarlierAgrees(c.store, c'.store, ids, i);
    }
    AllEntries(c', ids);
  }

  lemma WrittenHashes(c: Cache, s: SeqId, tok: Token)
    requires Inv(c) && Writable(c, s)
    ensures var c' := WriteLast(c, s, tok);
      FreeOk(c', {}) && RefOk(c') && IndexOk(c') && HashOk(c')
  {
    var c' := WriteLast(c, s, tok);
    var b := Last(c, s);
    assert Hashed(c, b);
    forall x: nat | x < |c'.blocks|
      ensures Hashed(c', x) && Users(c'.tables, x) == Users(c.tables, x)
    {
      assert Hashed(c, x);
    }
  }

  lemma WriteKeeps(c: Cache, s: SeqId, tok: Token)
    requires Inv(c) && Writable(c, s)
    ensures var c' := WriteLast(c, s, tok);
      && Inv(c') && Limits(c, c') && View(c') == View(c)[s := View(c)[s] + [tok]]
  {
    WrittenTable(c, s, tok);
    WrittenHashes(c, s, tok);
  }

  // ----- copy on write -----

  lemma CopiedIds(c: Cache, c': Cache, ids: seq<nat>, b: nat)
    requires c.blockSize > 0 && ids != [] && IdsOk(c, ids) && InPool(c, ids) && b !in ids && b < |c.blocks|
    requires |c'.blocks| == |c.blocks| && |c'.store| == |c.store| == |c.blocks| && c'.blockSize == c.blockSize
    requires forall x: nat | x < |c.blocks| && x != b ::
      c'.store[x] == c.store[x] && c'.blocks[x].numTokens == c.blocks[x].numTokens
    requires var o := ids[|ids| - 1];
      c'.store[b] == c.store[o] && c'.blocks[b].numTokens == c.blocks[o].numTokens
    ensures var ids' := ids[|ids| - 1 := b];
      IdsOk(c', ids') && Read(c'.store, ids') == Read(c.store, ids)
  {
    hide Read, IdsOk;
    var n := |ids| - 1;
    var ids' := ids[n := b];
    forall i: nat | i < |ids'|
      ensures EntryOk(c', ids', i) && Read(c'.store, ids'[..i]) == Read(c.store, ids[..i])
    {
      EntryOf(c, ids, i);
      assert ids'[..i] == ids[..i];
      ReadAgrees(c.store, c'.store, ids[..i]);
    }
    AllEntries(c', ids');
    assert ids[..n] + [ids[n]] == ids && ids'[..n] + [b] == ids';
    ReadSnoc(c.store, ids[..n], ids[n]);
    ReadSnoc(c'.store, ids'[..n], b);
  }

  lemma CopiedTable(c: Cache, s: SeqId, b: nat)
    requires CopySpot(c, s, b) && IdsOk(c, c.tables[s].blocks)
    requires c.tables[s].numTokens == |Read(c.store, c.tables[s].blocks)|
    ensures var c' := Copied(c, s, b);
      Retabled(c, c', s, c'.tables[s]) && Read(c'.store, c'.tables[s].blocks) == Read(c.store, c.tables[s].blocks)
  {
    CopiedIds(c, Copied(c, s, b), c.tables[s].blocks, b);
  }

  lemma ViewAt(c: Cache, s: SeqId)
    requires s in c.tables
    ensures s in View(c) && View(c)[s] == Read(c.store, c.tables[s].blocks)
  {
  }

  lemma CopiedTables(c: Cache, s: SeqId, b: nat)
    requires CopySpot(c, s, b) && TablesOk(c)
    ensures Shape(Copied(c, s, b)) && TablesOk(Copied(c, s, b)) && View(Copied(c, s, b)) == View(c)
  {
    hide Retabled, Read, IdsOk, View;
    var c' := Copied(c, s, b);
    CopiedTable(c, s, b);
    ViewAt(c, s);
    TablesUpdate(c, c', s, c'.tables[s]);
  }

  lemma CopiedCounts(c: Cache, s: SeqId, b: nat)
    requires CanCopy(c, s, b)
    ensures RefOk(Copied(c, s, b))
  {
    var c' := Copied(c, s, b);
    var ids := c.tables[s].blocks;
    TableNoDup(c, ids);
    forall x: nat | x < |c'.blocks| ensures c'.blocks[x].refCount == |Users(c'.tables, x)| {
      CopiedUsers(c.tables, s, c'.tables[s], b, x);
    }
  }

  lemma CopiedUsers(tables: map<SeqId, Table>, s: SeqId, t': Table, b: nat, x: nat)
    requires s in tables
    requires var ids := tables[s].blocks;
      && ids != [] && NoDup(ids) && b !in ids && t'.blocks == ids[|ids| - 1 := b]
    requires forall s' | s' in tables :: b !in tables[s'].blocks
    ensures var o := tables[s].blocks[|tables[s].blocks| - 1];
      |Users(tables[s := t'], x)| ==
        if x == b then 1 else if x == o then |Users(tables, x)| - 1 else |Users(tables, x)|
  {
    var ids := tables[s].blocks;
    var o := ids[|ids| - 1];
    UsersAdd(tables, s, t', x);
    CopiedMembers(ids, b, x);
    if x == b {
      assert Users(tables, b) == {};
    } else if x == o {
      UserCounts(tables, s, o);
    } else {
      assert Users(tables[s := t'], x) == Users(tables, x);
    }
  }

  lemma CopiedMembers(ids: seq<nat>, b: nat, x: nat)
    requires ids != [] && NoDup(ids) && b !in ids
    ensures var ids' := ids[|ids| - 1 := b];
      x in ids' <==> x == b || (x in ids && x != ids[|ids| - 1])
  {
    var n := |ids| - 1;
    var ids' := ids[n := b];
    assert ids'[n] == b;
    if x in ids && x != ids[n] {
      var i :| 0 <= i < |ids| && ids[i] == x;
      assert ids'[i] == x;
    }
  }

  lemma CopiedHashes(c: Cache, s: SeqId, b: nat)
    requires CanCopy(c, s, b)
    ensures var c' := Copied(c, s, b);
      FreeOk(c', {}) && IndexOk(c') && HashOk(c')
  {
    var c' := Copied(c, s, b);
    forall x: nat | x < |c'.blocks| ensures Hashed(c', x) {
      assert Hashed(c, x);
    }
  }

  lemma CopiedKeeps(c: Cache, s: SeqId, b: nat)
    requires CanCopy(c, s, b)
    ensures Inv(Copied(c, s, b)) && View(Copied(c, s, b)) == View(c)
  {
    CopiedTables(c, s, b);
    CopiedCounts(c, s, b);
    CopiedHashes(c, s, b);
  }

  lemma CopyIsCopied(c: Cache, s: SeqId)
    requires Shape(c) && s in c.tables && c.tables[s].blocks != [] && Take(c).Taken?
    ensures CopyOnWrite(c, s) == Some(Copied(Take(c).cache, s, Take(c).id))
  {
  }

  /** Copying the last block changes what no sequence reads and leaves s sole owner of its copy. */
  lemma CopyKeeps(c: Cache, s: SeqId)
    requires Inv(c) && s in c.tables && c.tables[s].blocks != []
    requires c.blocks[Last(c, s)].refCount > 1 && c.blocks[Last(c, s)].numTokens < c.blockSize
    ensures CopyOnWrite(c, s).Some? <==> Available(c) > 0
    ensures CopyOnWrite(c, s).Some? ==>
      var c' := CopyOnWrite(c, s).value;
      Inv(c') && Limits(c, c') && View(c') == View(c) && Writable(c', s)
  {
    TakeKeeps(c);
    if Take(c).Taken? {
      CopyIsCopied(c, s);
      CopiedKeeps(Take(c).cache, s, Take(c).id);
    }
  }

  // ----- a new block -----

  lemma GrowIsPlaced(c: Cache, s: SeqId, tok: Token)
    requires Shape(c) && s in c.tables && Take(c).Taken?
    ensures var c1, b := Take(c).cache, Take(c).id;
      var t := c.tables[s];
      && Grow(c, s).Some?
      && WriteLast(Grow(c, s).value, s, tok) ==
         Placed(c1, s, b, Block(1, 1, None, c.clock), [tok], Table(t.blocks + [b], t.numTokens + 1, t.numCached))
         .(clock := c.clock + 1)
  {
    hide Read;
    var c1, b := Take(c).cache, Take(c).id;
    var t, blank := c.tables[s], Block(1, 0, None, c1.blocks[b].lastUsed);
    var context := Read(c1.store, t.blocks);
    Twice(c1.blocks, b, blank, Block(1, 1, None, c.clock));
    Twice(c1.store, b, Slots(context, []), Slots(context, [tok]));
    Overwrite(c1.tables[s := t.(blocks := t.blocks + [b])], c1.tables, s, t.(blocks := t.blocks + [b]),
      Table(t.blocks + [b], t.numTokens + 1, t.numCached));
    assert [] + [tok] == [tok];
  }

  lemma Twice<T>(a: seq<T>, i: nat, x: T, y: T)
    requires i < |a|
    ensures a[i := x][i := y] == a[i := y]
  {
  }

  lemma GrowKeeps(c: Cache, s: SeqId, tok: Token)
    requires Inv(c) && s in c.tables && AllFull(c, c.tables[s].blocks)
    ensures Grow(c, s).Some? <==> Available(c) > 0
    ensures Grow(c, s).Some? ==>
      var c' := WriteLast(Grow(c, s).value, s, tok);
      Inv(c') && Limits(c, c') && View(c') == View(c)[s := View(c)[s] + [tok]]
  {
    hide FreeOk, RefOk, IndexOk, HashOk, Read, Placed;
    TakeKeeps(c);
    if Grow(c, s).Some? {
      var c1, b := Take(c).cache, Take(c).id;
      var t := c.tables[s];
      var t' := Table(t.blocks + [b], t.numTokens + 1, t.numCached);
      assert AllFull(c1, t.blocks);
      PlacedKeeps(c1, s, b, Block(1, 1, None, c.clock), [tok], t');
      GrowIsPlaced(c, s, tok);
      TickKeeps(Placed(c1, s, b, Block(1, 1, None, c.clock), [tok], t'), c.clock + 1);
    }
  }

  // ----- append -----

  /** A table's blocks are all full exactly when its token count is a multiple of the block size. */
  lemma FullAtBoundary(c: Cache, s: SeqId)
    requires Inv(c) && s in c.tables
    ensures var t := c.tables[s];
      && (t.numTokens % c.blockSize == 0 ==> AllFull(c, t.blocks))
      && (t.numTokens % c.blockSize != 0 ==>
            t.blocks != [] && Last(c, s) < |c.blocks| && c.blocks[Last(c, s)].numTokens < c.blockSize)
  {
    var ids := c.tables[s].blocks;
    TableSize(c, ids);
    AllButLastFull(c, ids);
    if ids != [] {
      assert EntryOk(c, ids, |ids| - 1);
    }
  }

  lemma AllButLastFull(c: Cache, ids: seq<nat>)
    requires IdsOk(c, ids)
    ensures ids == [] || (ids[|ids| - 1] < |c.blocks| && c.blocks[ids[|ids| - 1]].numTokens == c.blockSize) ==>
      AllFull(c, ids)
  {
    forall i: nat | i < |ids| - 1 ensures ids[i] < |c.blocks| && c.blocks[ids[i]].numTokens == c.blockSize {
      assert EntryOk(c, ids, i);
    }
  }

  /** A live sequence grows by the token, and no other sequence reads differently: a write
      through one fork never shows in another. It fails, changing nothing, exactly when it
      needs a block and none is available. */
  lemma AppendKeeps(c: Cache, s: SeqId, tok: Token)
    requires Inv(c)
    ensures var r := Append(c, s, tok);
      && (r.SequenceNotFound? <==> s !in c.tables)
      && (r.Done? <==> s in c.tables && (NeedsBlock(c, s) ==> Available(c) > 0))
      && !r.AlreadyAllocated?
      && (r.Done? ==> Inv(r.cache) && Limits(c, r.cache) && View(r.cache) == View(c)[s := View(c)[s] + [tok]])
  {
    if s in c.tables {
      FullAtBoundary(c, s);
      var t := c.tables[s];
      if t.numTokens % c.blockSize == 0 {
        GrowKeeps(c, s, tok);
      } else if c.blocks[Last(c, s)].refCount > 1 {
        CopyKeeps(c, s);
        if CopyOnWrite(c, s).Some? {
          WriteKeeps(CopyOnWrite(c, s).value, s, tok);
        }
      } else {
        UserCounts(c.tables, s, Last(c, s));
        WriteKeeps(c, s, tok);
      }
    }
  }
}
