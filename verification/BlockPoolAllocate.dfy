/** Allocation: admission is all-or-nothing, and an admitted sequence reads back its prompt. */
module BlockPoolAllocate {
  import opened Prelude
  import opened BlockPool
  import opened BlockPoolInvariant
  import opened BlockPoolSteps

  lemma TakeIgnoresTables(c: Cache, tables: map<SeqId, Table>)
    requires Shape(c) && Shape(c.(tables := tables))
    ensures Take(c).Exhausted? <==> Take(c.(tables := tables)).Exhausted?
    ensures Take(c).Taken? ==>
      Take(c.(tables := tables)) == Taken(Take(c).cache.(tables := tables), Take(c).id)
  {
  }

  /** With the table counted as belonging to s, a hit is a share and a miss is a placement. */
  lemma HitIsShared(c: Cache, s: SeqId, t: Table, h: Hash, done: seq<Token>, chunk: seq<Token>)
    requires Shape(c) && InPool(c, t.blocks) && h in c.index
    ensures var r := Hit(c, t, h, |chunk|);
      && Pending(r.cache, s, r.table, |done + chunk|) ==
         Shared(Pending(c, s, t, |done|), s, c.index[h], r.table.(numTokens := |done + chunk|))
  {
  }

  lemma MissIsPlaced(c: Cache, s: SeqId, t: Table, hash: Option<Hash>, done: seq<Token>, chunk: seq<Token>)
    requires Shape(c) && InPool(c, t.blocks) && Read(c.store, t.blocks) == done
    requires Take(c).Taken?
    ensures var r := Miss(c, t, hash, done, chunk);
      var w1, b := Take(c).cache.(tables := c.tables[s := t.(numTokens := |done|)]), Take(c).id;
      && r.Advance?
      && Pending(r.cache, s, r.table, |done + chunk|) ==
         Placed(w1, s, b, Block(1, |chunk|, hash, c.clock), chunk, r.table.(numTokens := |done + chunk|))
  {
  }

  lemma MissResult(c: Cache, t: Table, hash: Option<Hash>, done: seq<Token>, chunk: seq<Token>)
    requires Shape(c) && InPool(c, t.blocks) && Take(c).Taken?
    ensures var r := Miss(c, t, hash, done, chunk);
      && r.Advance? && r.table.blocks == t.blocks + [Take(c).id]
      && (hash.Some? ==> r.prefix == hash.value)
      && r.cache == c.(blocks := r.cache.blocks, store := r.cache.store, free := r.cache.free, index := r.cache.index)
      && |r.cache.blocks| == |c.blocks|
  {
  }

  lemma HitKeepsPending(c: Cache, s: SeqId, t: Table, prefix: Hash, done: seq<Token>, chunk: seq<Token>)
    requires Placing(c, s, t, prefix, done, true)
    requires c.caching && |chunk| == c.blockSize && Chain(prefix, chunk) in c.index
    ensures var r := Hit(c, t, Chain(prefix, chunk), |chunk|);
      var w' := Pending(r.cache, s, r.table, |done + chunk|);
      && Inv(w') && AllFull(w', r.table.blocks)
      && View(w') == View(Pending(c, s, t, |done|))[s := done + chunk]
      && Unpinned(w') == Unpinned(Pending(c, s, t, |done|)) - {c.index[Chain(prefix, chunk)]}
  {
    var w := Pending(c, s, t, |done|);
    var h := Chain(prefix, chunk);
    var r := Hit(c, t, h, |chunk|);
    assert w.blocks[c.index[h]].contentHash == Some(h);
    Reads(c, s, t, |done|);
    SharedKeeps(w, s, c.index[h], r.table.(numTokens := |done + chunk|));
    HitIsShared(c, s, t, h, done, chunk);
  }

  lemma HitCovers(c: Cache, s: SeqId, t: Table, prefix: Hash, done: seq<Token>, chunk: seq<Token>)
    requires Placing(c, s, t, prefix, done, true)
    requires c.caching && |chunk| == c.blockSize && Chain(prefix, chunk) in c.index
    ensures var r := Hit(c, t, Chain(prefix, chunk), |chunk|);
      && Shape(r.cache) && InPool(r.cache, r.table.blocks) && s !in r.cache.tables
      && AllFull(r.cache, r.table.blocks) && Read(r.cache.store, r.table.blocks) == done + chunk
      && FullChain(r.prefix, c.blockSize) && Flat(r.prefix) == done + chunk && r.cache.blockSize == c.blockSize
  {
    var r := Hit(c, t, Chain(prefix, chunk), |chunk|);
    HitKeepsPending(c, s, t, prefix, done, chunk);
    Reads(r.cache, s, r.table, |done + chunk|);
  }

  lemma HitKeeps(c: Cache, s: SeqId, t: Table, prefix: Hash, done: seq<Token>, chunk: seq<Token>)
    requires Placing(c, s, t, prefix, done, true)
    requires c.caching && |chunk| == c.blockSize && Chain(prefix, chunk) in c.index
    ensures var r := Hit(c, t, Chain(prefix, chunk), |chunk|);
      Placing(r.cache, s, r.table, r.prefix, done + chunk, true)
  {
    HitKeepsPending(c, s, t, prefix, done, chunk);
    HitCovers(c, s, t, prefix, done, chunk);
  }

  lemma HitIsOneStep(c: Cache, s: SeqId, t: Table, prefix: Hash, done: seq<Token>, chunk: seq<Token>)
    requires Placing(c, s, t, prefix, done, true)
    requires c.caching && |chunk| == c.blockSize && Chain(prefix, chunk) in c.index
    ensures OneStep(c, Hit(c, t, Chain(prefix, chunk), |chunk|).cache)
  {
    var r := Hit(c, t, Chain(prefix, chunk), |chunk|);
    HitKeepsPending(c, s, t, prefix, done, chunk);
    UnpinnedPending(c, s, t, |done|);
    UnpinnedPending(r.cache, s, r.table, |done + chunk|);
  }

  lemma Reads(c: Cache, s: SeqId, t: Table, n: nat)
    ensures View(Pending(c, s, t, n))[s] == Read(c.store, t.blocks)
  {
    var w := Pending(c, s, t, n);
    assert w.tables[s].blocks == t.blocks;
  }

  lemma UnpinnedPending(c: Cache, s: SeqId, t: Table, n: nat)
    ensures Unpinned(Pending(c, s, t, n)) == Unpinned(c)
  {
  }

  lemma MissTakes(c: Cache, s: SeqId, t: Table, n: nat)
    requires Shape(c) && Inv(Pending(c, s, t, n)) && Available(c) > 0
    ensures Take(c).Taken?
    ensures var w, w1, b := Pending(c, s, t, n), Take(c).cache.(tables := c.tables[s := t.(numTokens := n)]),
      Take(c).id;
      && Take(w) == Taken(w1, b) && InvExcept(w1, {b})
      && w1 == w.(free := w1.free, index := w1.index, blocks := w1.blocks)
      && |w1.blocks| == |c.blocks| && w1.blocks[b].refCount == 0
      && (forall x: nat | x < |c.blocks| && x != b :: w1.blocks[x] == c.blocks[x])
      && w1.index.Keys <= c.index.Keys && b !in t.blocks
      && View(w1) == View(w) && Unpinned(w1) == Unpinned(w)
  {
    hide FreeOk, RefOk, IndexOk, HashOk, TablesOk, Read;
    var w := Pending(c, s, t, n);
    assert EvictableBlocks(w) == EvictableBlocks(c);
    TakeKeeps(w);
    TakeIgnoresTables(c, w.tables);
    assert w.tables[s].blocks == t.blocks;
  }

  lemma MissKeepsPending(c: Cache, s: SeqId, t: Table, prefix: Hash, done: seq<Token>, chunk: seq<Token>,
      hash: Option<Hash>)
    requires CanMiss(c, s, t, prefix, done, chunk, hash)
    ensures var r := Miss(c, t, hash, done, chunk);
      && r.Advance?
      && var w' := Pending(r.cache, s, r.table, |done + chunk|);
      && Inv(w') && View(w') == View(Pending(c, s, t, |done|))[s := done + chunk]
      && (|chunk| == c.blockSize ==> AllFull(w', r.table.blocks))
      && Unpinned(w') == Unpinned(Pending(c, s, t, |done|)) - {Take(c).id}
  {
    hide FreeOk, RefOk, IndexOk, HashOk, TablesOk, Take, Placed;
    MissTakes(c, s, t, |done|);
    Reads(c, s, t, |done|);
    MissResult(c, t, hash, done, chunk);
    var r := Miss(c, t, hash, done, chunk);
    var w1, b := Take(c).cache.(tables := c.tables[s := t.(numTokens := |done|)]), Take(c).id;
    var blk := Block(1, |chunk|, hash, c.clock);
    assert w1.store == c.store && w1.tables[s].blocks == t.blocks;
    assert AllFull(w1, t.blocks);
    PlacedKeeps(w1, s, b, blk, chunk, r.table.(numTokens := |done + chunk|));
    MissIsPlaced(c, s, t, hash, done, chunk);
  }

  lemma MissCovers(c: Cache, s: SeqId, t: Table, prefix: Hash, done: seq<Token>, chunk: seq<Token>, hash: Option<Hash>)
    requires CanMiss(c, s, t, prefix, done, chunk, hash)
    ensures var r := Miss(c, t, hash, done, chunk);
      && r.Advance?
      && Shape(r.cache) && InPool(r.cache, r.table.blocks) && s !in r.cache.tables
      && (|chunk| == c.blockSize ==> AllFull(r.cache, r.table.blocks))
      && Read(r.cache.store, r.table.blocks) == done + chunk
      && (hash.Some? ==> FullChain(r.prefix, c.blockSize) && Flat(r.prefix) == done + chunk)
      && r.cache.blockSize == c.blockSize
  {
    MissKeepsPending(c, s, t, prefix, done, chunk, hash);
    MissTakes(c, s, t, |done|);
    MissResult(c, t, hash, done, chunk);
    var r := Miss(c, t, hash, done, chunk);
    Reads(r.cache, s, r.table, |done + chunk|);
  }

  lemma MissKeeps(c: Cache, s: SeqId, t: Table, prefix: Hash, done: seq<Token>, chunk: seq<Token>, hash: Option<Hash>)
    requires CanMiss(c, s, t, prefix, done, chunk, hash)
    ensures var r := Miss(c, t, hash, done, chunk);
      r.Advance? && Placing(r.cache, s, r.table, r.prefix, done + chunk, |chunk| == c.blockSize)
  {
    MissKeepsPending(c, s, t, prefix, done, chunk, hash);
    MissCovers(c, s, t, prefix, done, chunk, hash);
    MissTakes(c, s, t, |done|);
    MissResult(c, t, hash, done, chunk);
  }

  lemma MissIsOneStep(c: Cache, s: SeqId, t: Table, prefix: Hash, done: seq<Token>, chunk: seq<Token>,
      hash: Option<Hash>)
    requires CanMiss(c, s, t, prefix, done, chunk, hash)
    ensures var r := Miss(c, t, hash, done, chunk); r.Advance? ==> OneStep(c, r.cache)
  {
    var r := Miss(c, t, hash, done, chunk);
    MissKeepsPending(c, s, t, prefix, done, chunk, hash);
    MissTakes(c, s, t, |done|);
    MissResult(c, t, hash, done, chunk);
    UnpinnedPending(c, s, t, |done|);
    UnpinnedPending(r.cache, s, r.table, |done + chunk|);
  }

  // ----- the loop -----

  lemma AvailablePending(c: Cache, s: SeqId, t: Table, n: nat)
    requires Inv(Pending(c, s, t, n))
    ensures Available(c) == |Unpinned(c)|
  {
    var w := Pending(c, s, t, n);
    assert EvictableBlocks(w) == EvictableBlocks(c);
    AvailableIsUnpinned(w, {});
    UnpinnedPending(c, s, t, n);
  }

  /** A miss goes through exactly when some block is available. */
  lemma MissNeeds(c: Cache, s: SeqId, t: Table, n: nat)
    requires Shape(c) && Inv(Pending(c, s, t, n))
    ensures Take(c).Taken? <==> Available(c) > 0
  {
    hide FreeOk, RefOk, IndexOk, HashOk, TablesOk, Read;
    var w := Pending(c, s, t, n);
    assert EvictableBlocks(w) == EvictableBlocks(c);
    TakeKeeps(w);
    TakeIgnoresTables(c, w.tables);
  }

  lemma PlaceChunkKeeps(c: Cache, s: SeqId, t: Table, prefix: Hash, done: seq<Token>, chunk: seq<Token>)
    requires Placing(c, s, t, prefix, done, true) && 0 < |chunk| <= c.blockSize
    ensures var r := PlaceChunk(c, t, prefix, done, chunk);
      && (|Unpinned(c)| > 0 ==> r.Advance?)
      && (r.Advance? ==>
            && Placing(r.cache, s, r.table, r.prefix, done + chunk, |chunk| == c.blockSize)
            && OneStep(c, r.cache)
            && View(Pending(r.cache, s, r.table, |done + chunk|)) == View(Pending(c, s, t, |done|))[s := done + chunk])
  {
    AvailablePending(c, s, t, |done|);
    MissNeeds(c, s, t, |done|);
    var shareable := |chunk| == c.blockSize && c.caching;
    if shareable && Chain(prefix, chunk) in c.index {
      HitKeeps(c, s, t, prefix, done, chunk);
      HitIsOneStep(c, s, t, prefix, done, chunk);
      HitKeepsPending(c, s, t, prefix, done, chunk);
    } else if Available(c) > 0 {
      var hash := if shareable then Some(Chain(prefix, chunk)) else None;
      MissKeeps(c, s, t, prefix, done, chunk, hash);
      MissIsOneStep(c, s, t, prefix, done, chunk, hash);
      MissKeepsPending(c, s, t, prefix, done, chunk, hash);
    }
  }

  /** One turn keeps the loop going where it advances at all, and with enough blocks it does. */
  lemma PlaceStep(c: Cache, s: SeqId, t: Table, prefix: Hash, toks: seq<Token>, start: nat, v: map<SeqId, seq<Token>>)
    requires start < |toks| && Going(c, s, t, prefix, toks, start, v)
    ensures var next := Min(start + c.blockSize, |toks|);
      var r := PlaceChunk(c, t, prefix, toks[..start], toks[start..next]);
      && (r.Advance? ==> OneStep(c, r.cache) && Going(r.cache, s, r.table, r.prefix, toks, next, v))
      && (Enough(c, toks, start) ==> r.Advance? && Enough(r.cache, toks, next))
  {
    hide FreeOk, RefOk, IndexOk, HashOk, TablesOk, View, Read, PlaceChunk, Unpinned;
    var next := Min(start + c.blockSize, |toks|);
    var done, chunk := toks[..start], toks[start..next];
    assert toks[..next] == done + chunk && |done| == start;
    ChunksStep(|toks| - start, c.blockSize);
    PlaceChunkKeeps(c, s, t, prefix, done, chunk);
    Overwrite(View(Pending(c, s, t, start)), v, s, done, toks[..next]);
  }

  lemma PlaceAllUnfolds(c: Cache, t: Table, prefix: Hash, toks: seq<Token>, start: nat)
    requires Shape(c) && InPool(c, t.blocks) && start < |toks|
    ensures var next := Min(start + c.blockSize, |toks|);
      var r := PlaceChunk(c, t, prefix, toks[..start], toks[start..next]);
      PlaceAll(c, t, prefix, toks, start) ==
        if r.Stuck? then Stuck else PlaceAll(r.cache, r.table, r.prefix, toks, next)
  {
  }

  lemma EndedAtOnce(c: Cache, s: SeqId, t: Table, prefix: Hash, toks: seq<Token>, v: map<SeqId, seq<Token>>)
    requires Going(c, s, t, prefix, toks, |toks|, v)
    ensures Ended(c, Advance(c, t, prefix), s, toks, v)
  {
  }

  lemma EndedAfter(c: Cache, c1: Cache, r: Progress, s: SeqId, toks: seq<Token>, v: map<SeqId, seq<Token>>)
    requires OneStep(c, c1) && Ended(c1, r, s, toks, v)
    ensures Ended(c, r, s, toks, v)
  {
  }

  /** A loop that gets through has placed all of the prompt. With enough unpinned blocks for the
      chunks that remain it always does, however many of them it pins by hits or reclaims by
      eviction on the way. */
  lemma {:induction false} PlaceAllKeeps(c: Cache, s: SeqId, t: Table, prefix: Hash, toks: seq<Token>, start: nat,
      v: map<SeqId, seq<Token>>)
    requires Shape(c) && InPool(c, t.blocks) && Going(c, s, t, prefix, toks, start, v)
    ensures var r := PlaceAll(c, t, prefix, toks, start);
      && (r.Advance? ==> Ended(c, r, s, toks, v))
      && (Enough(c, toks, start) ==> r.Advance?)
    decreases |toks| - start
  {
    if start == |toks| {
      EndedAtOnce(c, s, t, prefix, toks, v);
    } else {
      var next := Min(start + c.blockSize, |toks|);
      var r := PlaceChunk(c, t, prefix, toks[..start], toks[start..next]);
      PlaceStep(c, s, t, prefix, toks, start, v);
      PlaceAllUnfolds(c, t, prefix, toks, start);
      if r.Advance? {
        PlaceAllKeeps(r.cache, s, r.table, r.prefix, toks, next, v);
        var whole := PlaceAll(r.cache, r.table, r.prefix, toks, next);
        if whole.Advance? {
          EndedAfter(c, r.cache, whole, s, toks, v);
        }
      }
    }
  }

  lemma EmptyTablePlacing(c: Cache, s: SeqId, more: bool)
    requires Inv(c) && s !in c.tables
    ensures Placing(c, s, Table([], 0, 0), Root, [], more)
    ensures View(Pending(c, s, Table([], 0, 0), 0)) == View(c)[s := []]
  {
    var w := Pending(c, s, Table([], 0, 0), 0);
    forall b: nat | b < |c.blocks| ensures Users(w.tables, b) == Users(c.tables, b) {
      UsersAdd(c.tables, s, Table([], 0, 0), b);
    }
    forall b: nat | b < |c.blocks| ensures Hashed(w, b) {
      assert Hashed(c, b);
    }
    forall x | x in c.tables ensures IdsOk(w, c.tables[x].blocks) {
      IdsFrame(c, w, c.tables[x].blocks);
    }
    assert IdsOk(w, []);
  }

  lemma TickKeeps(c: Cache, n: int)
    requires Inv(c)
    ensures Inv(c.(clock := n)) && View(c.(clock := n)) == View(c)
  {
    var c' := c.(clock := n);
    forall b: nat | b < |c.blocks| ensures Hashed(c', b) {
      assert Hashed(c, b);
    }
    forall x | x in c.tables ensures IdsOk(c', c.tables[x].blocks) {
      IdsFrame(c, c', c.tables[x].blocks);
    }
  }

  lemma AllocateIs(c: Cache, s: SeqId, toks: seq<Token>, watermark: real)
    requires Shape(c) && s !in c.tables && CanAllocate(c, |toks|, watermark)
    ensures var r := PlaceAll(c, Table([], 0, 0), Root, toks, 0);
      r.Advance? && PoolOnly(c, r.cache) ==>
        Allocate(c, s, toks, watermark) == Done(Pending(r.cache, s, r.table, |toks|).(clock := c.clock + 1))
  {
  }

  /** Admission is all-or-nothing. An unallocated sequence that `can_allocate` accepts over a
      reserve that is not negative is always allocated in full; one it rejects changes nothing.
      Whatever the reserve, an allocation that completes keeps the invariant, and the new sequence
      reads back exactly its prompt while every other sequence reads as before. */
  lemma AllocateKeeps(c: Cache, s: SeqId, toks: seq<Token>, watermark: real)
    requires Inv(c)
    ensures var r := Allocate(c, s, toks, watermark);
      && (r.AlreadyAllocated? <==> s in c.tables)
      && (r.Done? ==> s !in c.tables && CanAllocate(c, |toks|, watermark))
      && (Reserve(|c.blocks|, watermark) >= 0 && s !in c.tables && CanAllocate(c, |toks|, watermark) ==> r.Done?)
      && (r.Done? ==> Inv(r.cache) && View(r.cache) == View(c)[s := toks] && Limits(c, r.cache))
  {
    if s !in c.tables && CanAllocate(c, |toks|, watermark) {
      AllocateAccepted(c, s, toks);
      var r := PlaceAll(c, Table([], 0, 0), Root, toks, 0);
      if r.Advance? {
        AllocateIs(c, s, toks, watermark);
        TickKeeps(Pending(r.cache, s, r.table, |toks|), c.clock + 1);
      }
    }
  }

  lemma AllocateAccepted(c: Cache, s: SeqId, toks: seq<Token>)
    requires Inv(c) && s !in c.tables
    ensures var r := PlaceAll(c, Table([], 0, 0), Root, toks, 0);
      && (Available(c) >= CeilDiv(|toks|, c.blockSize) ==> r.Advance?)
      && (r.Advance? ==>
            && PoolOnly(c, r.cache)
            && Inv(Pending(r.cache, s, r.table, |toks|))
            && View(Pending(r.cache, s, r.table, |toks|)) == View(c)[s := toks])
  {
    assert Going(c, s, Table([], 0, 0), Root, toks, 0, View(c)) by {
      EmptyTablePlacing(c, s, 0 < |toks|);
      assert toks[..0] == [];
    }
    AvailableIsUnpinned(c, {});
    ChunksIsCeilDiv(|toks|, c.blockSize);
    PlaceAllKeeps(c, s, Table([], 0, 0), Root, toks, 0, View(c));
    assert toks[..|toks|] == toks;
  }
}
