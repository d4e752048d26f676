/** What the pool may promise and what it may take: admission counts every block no sequence names, an
    allocation takes no more than it needs, and eviction takes the block unused for longest. */
module BlockPoolReuse {
  import opened Prelude
  import opened BlockPool
  import opened BlockPoolInvariant
  import opened BlockPoolSteps
  import opened BlockPoolAllocate
  import opened BlockPoolRuns

  // ----- admission -----

  /** Some live sequence's table names the block. */
  predicate Named(c: Cache, b: nat) {
    exists s :: s in c.tables && b in c.tables[s].blocks
  }

  function Unnamed(c: Cache): set<nat> {
    set b: nat | b < |c.blocks| && !Named(c, b)
  }

  lemma UnnamedIsUnpinned(c: Cache)
    requires Inv(c)
    ensures Unnamed(c) == Unpinned(c)
  {
    forall b: nat | b < |c.blocks| ensures c.blocks[b].refCount == 0 <==> !Named(c, b) {
      if Named(c, b) {
        var s :| s in c.tables && b in c.tables[s].blocks;
        UserCounts(c.tables, s, b);
      } else {
        assert Users(c.tables, b) == {};
      }
    }
  }

  /** The fewest blocks that hold n tokens. */
  predicate IsNeed(n: int, blockSize: nat, need: int) {
    (need - 1) * blockSize < n <= need * blockSize
  }

  /** x with its fraction dropped, whatever its sign. */
  predicate IsCut(x: real, k: int) {
    if x >= 0.0 then k as real <= x < k as real + 1.0 else k as real - 1.0 < x <= k as real
  }

  /** What the watermark keeps back of the pool. */
  predicate IsReserve(c: Cache, watermark: real, reserve: int) {
    IsCut(|c.blocks| as real * watermark, reserve)
  }

  lemma NeedIs(n: int, blockSize: nat, need: int)
    requires blockSize > 0 && IsNeed(n, blockSize, need)
    ensures CeilDiv(n, blockSize) == need
  {
    DivModOf(n + blockSize - 1, need, blockSize, n + blockSize - 1 - need * blockSize);
  }

  lemma CutIs(numBlocks: nat, watermark: real, k: int)
    requires IsCut(numBlocks as real * watermark, k)
    ensures Reserve(numBlocks, watermark) == k
  {
  }

  /** A prompt is admitted exactly when the blocks that no live sequence names, cached or not, leave
      the reserve after it. */
  lemma AdmitsExactly(c: Cache, n: int, watermark: real, need: int, reserve: int)
    requires Inv(c) && IsNeed(n, c.blockSize, need) && IsReserve(c, watermark, reserve)
    ensures CanAllocate(c, n, watermark) <==> |Unnamed(c)| - need >= reserve
  {
    hide FreeOk, RefOk, IndexOk, HashOk, TablesOk, Reserve, CeilDiv;
    NeedIs(n, c.blockSize, need);
    CutIs(|c.blocks|, watermark, reserve);
    AvailableIsUnpinned(c, {});
    UnnamedIsUnpinned(c);
  }

  /** The blocks that no live sequence names leave the reserve after the blocks for n tokens. */
  ghost predicate LeavesReserve(c: Cache, n: int, watermark: real) {
    exists need: int, reserve: int ::
      IsNeed(n, c.blockSize, need) && IsReserve(c, watermark, reserve) && |Unnamed(c)| - need >= reserve
  }

  lemma ReserveIsReserve(c: Cache, watermark: real)
    ensures IsReserve(c, watermark, Reserve(|c.blocks|, watermark))
  {
  }

  lemma AdmitsWhatLeavesReserve(c: Cache, n: int, watermark: real)
    requires Inv(c)
    ensures CanAllocate(c, n, watermark) <==> LeavesReserve(c, n, watermark)
  {
    hide FreeOk, RefOk, IndexOk, HashOk, TablesOk, CanAllocate, CeilDiv, Unnamed, IsNeed, IsCut, Reserve;
    var need, reserve := CeilDiv(n, c.blockSize), Reserve(|c.blocks|, watermark);
    CeilDivIsNeed(n, c.blockSize);
    ReserveIsReserve(c, watermark);
    AdmitsExactly(c, n, watermark, need, reserve);
    if LeavesReserve(c, n, watermark) {
      var need', reserve' :|
        IsNeed(n, c.blockSize, need') && IsReserve(c, watermark, reserve') && |Unnamed(c)| - need' >= reserve';
      AdmitsExactly(c, n, watermark, need', reserve');
    }
  }

  lemma CeilDivIsNeed(n: int, blockSize: nat)
    requires blockSize > 0
    ensures IsNeed(n, blockSize, CeilDiv(n, blockSize))
  {
    var q, r := (n + blockSize - 1) / blockSize, (n + blockSize - 1) % blockSize;
    assert n + blockSize - 1 == q * blockSize + r && 0 <= r < blockSize;
    assert (q - 1) * blockSize == q * blockSize - blockSize;
  }

  /** With no live sequence and nothing kept back, every prompt that fits in the pool is allocated. */
  lemma IdlePoolServes(c: Cache, s: SeqId, toks: seq<Token>, watermark: real)
    requires Inv(c) && c.tables == map[] && IsReserve(c, watermark, 0)
    ensures Allocate(c, s, toks, watermark).Done? <==> |toks| <= |c.blocks| * c.blockSize
  {
    hide FreeOk, RefOk, IndexOk, HashOk, TablesOk, Reserve, PlaceAll;
    CutIs(|c.blocks|, watermark, 0);
    AllFreedAllAvailable(c);
    AllocateKeeps(c, s, toks, watermark);
    NeedFits(|toks|, |c.blocks|, c.blockSize);
  }

  lemma NeedFits(n: nat, blocks: nat, blockSize: nat)
    requires blockSize > 0
    ensures CeilDiv(n, blockSize) <= blocks <==> n <= blocks * blockSize
  {
    var need := CeilDiv(n, blockSize);
    assert need * blockSize >= n > (need - 1) * blockSize;
    if need <= blocks {
      assert (blocks - need) * blockSize >= 0;
    } else {
      MulAtLeast(need - blocks, blockSize);
      assert (need - 1 - blocks) * blockSize >= 0;
    }
  }

  /** So does a pool all of whose sequences have been freed, whatever it went through. */
  lemma FreedPoolServes(numBlocks: nat, blockSize: nat, caching: bool, ops: seq<Op>, done: seq<bool>, c: Cache,
      s: SeqId, toks: seq<Token>, watermark: real)
    requires blockSize > 0 && IsCut(numBlocks as real * watermark, 0)
    requires Inv(Fresh(numBlocks, blockSize, caching)) && Run(Fresh(numBlocks, blockSize, caching), ops, done, c)
    requires IntendedRun(map[], ops, done) == map[]
    ensures Shape(c) && (Allocate(c, s, toks, watermark).Done? <==> |toks| <= numBlocks * blockSize)
  {
    hide FreeOk, RefOk, IndexOk, HashOk, TablesOk, Reserve, Run, IntendedRun, Allocate;
    FreshIsEmpty(numBlocks, blockSize, caching);
    RunRefines(Fresh(numBlocks, blockSize, caching), ops, done, c);
    NoTables(c);
    IdlePoolServes(c, s, toks, watermark);
  }

  lemma NoTables(c: Cache)
    requires View(c) == map[]
    ensures c.tables == map[]
  {
    assert c.tables.Keys == View(c).Keys;
  }

  // ----- what an allocation takes -----

  lemma PlacedAll(c: Cache, t: Table, prefix: Hash, toks: seq<Token>)
    requires Shape(c) && InPool(c, t.blocks)
    ensures PlaceAll(c, t, prefix, toks, |toks|) == Advance(c, t, prefix)
  {
  }

  lemma {:induction false} PlaceAllTakes(c: Cache, s: SeqId, t: Table, prefix: Hash, toks: seq<Token>, start: nat,
      v: map<SeqId, seq<Token>>)
    requires Shape(c) && InPool(c, t.blocks) && Going(c, s, t, prefix, toks, start, v)
    requires PlaceAll(c, t, prefix, toks, start).Advance?
    ensures var c' := PlaceAll(c, t, prefix, toks, start).cache;
      |Unpinned(c)| <= |Unpinned(c')| + Chunks(|toks| - start, c.blockSize)
    decreases |toks| - start
  {
    hide PlaceChunk, PlaceAll, Placing, View, Enough, Unpinned, InPool, Chunks;
    if start == |toks| {
      PlacedAll(c, t, prefix, toks);
    } else {
      var next := Min(start + c.blockSize, |toks|);
      var r := PlaceChunk(c, t, prefix, toks[..start], toks[start..next]);
      PlaceAllUnfolds(c, t, prefix, toks, start);
      PlaceStep(c, s, t, prefix, toks, start, v);
      PlaceAllTakes(r.cache, s, r.table, r.prefix, toks, next, v);
      ChunksStep(|toks| - start, c.blockSize);
    }
  }

  /** An allocation takes no more blocks than its tokens need. */
  lemma AllocateTakes(c: Cache, s: SeqId, toks: seq<Token>, watermark: real, need: int)
    requires Inv(c) && Allocate(c, s, toks, watermark).Done? && IsNeed(|toks|, c.blockSize, need)
    ensures var c' := Allocate(c, s, toks, watermark).cache;
      Inv(c') && |Unnamed(c)| <= |Unnamed(c')| + need
  {
    hide PlaceAll, CanAllocate, FreeOk, RefOk, IndexOk, HashOk, TablesOk, View;
    AllocateKeeps(c, s, toks, watermark);
    var c', t := Allocate(c, s, toks, watermark).cache, Table([], 0, 0);
    EmptyTablePlacing(c, s, 0 < |toks|);
    assert toks[..0] == [];
    PlaceAllTakes(c, s, t, Root, toks, 0, View(c));
    NeedIs(|toks|, c.blockSize, need);
    ChunksIsCeilDiv(|toks|, c.blockSize);
    UnnamedIsUnpinned(c);
    UnnamedIsUnpinned(c');
    assert Unpinned(c') == Unpinned(PlaceAll(c, t, Root, toks, 0).cache);
  }

  // ----- eviction -----

  /** The block freed last comes off the free list as long as there is one, and nothing cached is lost; otherwise it
      is the unnamed block unused for longest, the lowest of several, and only its content is lost. */
  lemma TakesOldest(c: Cache)
    requires Inv(c) && Take(c).Taken?
    ensures var c1, v := Take(c).cache, Take(c).id;
      && v in Unnamed(c)
      && (c.free != [] ==>
            && v == c.free[|c.free| - 1] && c1.free == c.free[..|c.free| - 1]
            && c1.blocks == c.blocks && c1.index == c.index)
      && (c.free == [] ==>
            && (forall b | b in Unnamed(c) ::
                  c.blocks[v].lastUsed < c.blocks[b].lastUsed
                  || (c.blocks[v].lastUsed == c.blocks[b].lastUsed && v <= b))
            && (forall b: nat | b < |c.blocks| && b != v :: c1.blocks[b] == c.blocks[b])
            && (forall h :: h in c1.index <==> h in c.index && c.index[h] != v))
  {
    hide HashOk, TablesOk;
    UnnamedIsUnpinned(c);
    LruIsLeast(c.blocks, |c.blocks|);
    if c.free == [] {
      assert forall b | b in Unnamed(c) :: b in c.free || Evictable(c.blocks[b]);
    } else {
      assert c.free[|c.free| - 1] in c.free;
    }
  }

  // ----- what counts as use -----

  /** The blocks used by a step are stamped with the clock, and no other stamp changes. */
  ghost predicate Stamped(c: Cache, c': Cache, used: seq<nat>) {
    && |c'.blocks| == |c.blocks| && InPool(c, used)
    && (forall b: nat | b < |c.blocks| :: c'.blocks[b].lastUsed == if b in used then c.clock else c.blocks[b].lastUsed)
  }

  lemma PlaceChunkStamps(c: Cache, t: Table, prefix: Hash, before: seq<Token>, chunk: seq<Token>)
    requires Shape(c) && InPool(c, t.blocks) && PlaceChunk(c, t, prefix, before, chunk).Advance?
    ensures var r := PlaceChunk(c, t, prefix, before, chunk);
      && |r.table.blocks| == |t.blocks| + 1 && r.table.blocks[..|t.blocks|] == t.blocks
      && Stamped(c, r.cache, [r.table.blocks[|t.blocks|]]) && r.cache.clock == c.clock
      && r.cache.caching == c.caching
  {
  }

  lemma {:induction false} PlaceAllStamps(c: Cache, t: Table, prefix: Hash, toks: seq<Token>, start: nat, c0: Cache)
    requires Shape(c) && InPool(c, t.blocks) && start <= |toks| && Stamped(c0, c, t.blocks) && c.clock == c0.clock
    requires PlaceAll(c, t, prefix, toks, start).Advance?
    ensures var r := PlaceAll(c, t, prefix, toks, start);
      Stamped(c0, r.cache, r.table.blocks) && r.cache.clock == c0.clock
    decreases |toks| - start
  {
    hide PlaceChunk;
    if start < |toks| {
      var next := Min(start + c.blockSize, |toks|);
      var r := PlaceChunk(c, t, prefix, toks[..start], toks[start..next]);
      PlaceChunkStamps(c, t, prefix, toks[..start], toks[start..next]);
      assert r.table.blocks == t.blocks + [r.table.blocks[|t.blocks|]];
      PlaceAllStamps(r.cache, r.table, r.prefix, toks, next, c0);
    }
  }

  /** An allocation uses the blocks of its table, found or taken, and moves the clock on. */
  lemma AllocateStamps(c: Cache, s: SeqId, toks: seq<Token>, watermark: real)
    requires Shape(c) && Allocate(c, s, toks, watermark).Done?
    ensures var c' := Allocate(c, s, toks, watermark).cache;
      s in c'.tables && Stamped(c, c', c'.tables[s].blocks) && c'.clock == c.clock + 1
  {
    hide PlaceAll, CanAllocate;
    assert Stamped(c, c, []);
    PlaceAllStamps(c, Table([], 0, 0), Root, toks, 0, c);
  }

  lemma WriteStamps(c: Cache, s: SeqId, tok: Token)
    requires Shape(c) && s in c.tables && c.tables[s].blocks != []
    ensures var c' := WriteLast(c, s, tok);
      && s in c'.tables && c'.tables[s].blocks == c.tables[s].blocks
      && Stamped(c, c', [c.tables[s].blocks[|c.tables[s].blocks| - 1]]) && c'.clock == c.clock + 1
  {
  }

  /** No stamp changes and the clock stands. */
  ghost predicate Unstamped(c: Cache, c': Cache) {
    && |c'.blocks| == |c.blocks| && c'.clock == c.clock
    && forall b: nat | b < |c.blocks| :: c'.blocks[b].lastUsed == c.blocks[b].lastUsed
  }

  lemma GrowStamps(c: Cache, s: SeqId)
    requires Shape(c) && s in c.tables
    ensures Grow(c, s).Some? ==> Unstamped(c, Grow(c, s).value)
    ensures c.tables[s].blocks != [] && CopyOnWrite(c, s).Some? ==> Unstamped(c, CopyOnWrite(c, s).value)
  {
    hide Read, Lru;
  }

  /** A decode uses the last block of its sequence. */
  lemma AppendStamps(c: Cache, s: SeqId, tok: Token)
    requires Shape(c) && Append(c, s, tok).Done?
    ensures var c' := Append(c, s, tok).cache;
      && s in c'.tables && c'.tables[s].blocks != []
      && Stamped(c, c', [c'.tables[s].blocks[|c'.tables[s].blocks| - 1]]) && c'.clock == c.clock + 1
  {
    hide WriteLast, Grow, CopyOnWrite;
    GrowStamps(c, s);
    var t := c.tables[s];
    if t.numTokens % c.blockSize == 0 {
      WriteStamps(Grow(c, s).value, s, tok);
    } else if c.blocks[t.blocks[|t.blocks| - 1]].refCount > 1 {
      WriteStamps(CopyOnWrite(c, s).value, s, tok);
    } else {
      WriteStamps(c, s, tok);
    }
  }

  /** Sharing and releasing use nothing. */
  lemma {:induction false} ReleaseStamps(c: Cache, ids: seq<nat>)
    requires Shape(c) && InPool(c, ids)
    ensures Unstamped(c, Release(c, ids))
    decreases |ids|
  {
    if ids != [] {
      var b := c.blocks[ids[0]];
      var b' := b.(refCount := b.refCount - 1);
      var c1 := if b'.refCount == 0 && b'.contentHash.None?
                then c.(blocks := c.blocks[ids[0] := b'.(numTokens := 0)], free := c.free + [ids[0]])
                else c.(blocks := c.blocks[ids[0] := b']);
      assert Unstamped(c, c1);
      ReleaseStamps(c1, ids[1..]);
    }
  }

  lemma {:induction false} RetainStamps(blocks: seq<Block>, ids: seq<nat>)
    requires forall i :: 0 <= i < |ids| ==> ids[i] < |blocks|
    ensures forall b: nat | b < |blocks| :: Retain(blocks, ids)[b].lastUsed == blocks[b].lastUsed
    decreases |ids|
  {
    if ids != [] {
      var b := blocks[ids[0]];
      RetainStamps(blocks[ids[0] := b.(refCount := b.refCount + 1)], ids[1..]);
    }
  }

  lemma ForkAndFreeStampNothing(c: Cache, s: SeqId, child: SeqId)
    requires Shape(c)
    ensures Unstamped(c, Free(c, s))
    ensures Fork(c, s, child).Done? ==> Unstamped(c, Fork(c, s, child).cache)
  {
    hide Release, Retain;
    if s in c.tables {
      ReleaseStamps(c.(tables := c.tables - {s}), c.tables[s].blocks);
      RetainStamps(c.blocks, c.tables[s].blocks);
    }
  }
}
