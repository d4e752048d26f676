/** The invariant of the block pool, and the predicates its proofs are written in. */
module BlockPoolInvariant {
  import opened Prelude
  import opened BlockPool

  // ----- the invariant -----

  /** The sequences whose table names block b. */
  function Users(tables: map<SeqId, Table>, b: nat): set<SeqId> {
    set s | s in tables && b in tables[s].blocks
  }

  /** Unpinned blocks without content are exactly the free list, except for the
      blocks in `loose`, which have been taken and not yet placed in a table. */
  ghost predicate FreeOk(c: Cache, loose: set<nat>) {
    && NoDup(c.free)
    && (forall b: nat | b < |c.blocks| ::
          b in c.free <==> c.blocks[b].refCount == 0 && c.blocks[b].contentHash.None? && b !in loose)
    && (forall b: nat | b in loose && b < |c.blocks| :: c.blocks[b].contentHash.None?)
  }

  ghost predicate RefOk(c: Cache) {
    forall b: nat | b < |c.blocks| :: c.blocks[b].refCount == |Users(c.tables, b)|
  }

  /** The hash index is the exact inverse of the blocks' content hashes. */
  ghost predicate IndexOk(c: Cache) {
    && (forall h | h in c.index :: c.index[h] < |c.blocks| && c.blocks[c.index[h]].contentHash == Some(h))
    && (forall b: nat | b < |c.blocks| && c.blocks[b].contentHash.Some? ::
          c.blocks[b].contentHash.value in c.index && c.index[c.blocks[b].contentHash.value] == b)
  }

  /** A hashed block is full and holds what its hash says, in the context its hash says. */
  ghost predicate Hashed(c: Cache, b: nat) {
    b < |c.blocks| && b < |c.store| && c.blocks[b].contentHash.Some? ==>
      var h := c.blocks[b].contentHash.value;
      && h.Chain? && FullChain(h, c.blockSize)
      && c.store[b] == Slots(Flat(h.prev), h.chunk)
      && c.blocks[b].numTokens == c.blockSize
  }

  ghost predicate HashOk(c: Cache) {
    forall b: nat | b < |c.blocks| :: Hashed(c, b)
  }

  /** Block i of a table continues what blocks 0..i-1 hold, and only the last may be partial. */
  ghost predicate EntryOk(c: Cache, ids: seq<nat>, i: nat)
    requires i < |ids|
  {
    var b := ids[i];
    && b < |c.blocks| && b < |c.store|
    && c.store[b].context == Read(c.store, ids[..i])
    && |c.store[b].tokens| == c.blocks[b].numTokens
    && 1 <= c.blocks[b].numTokens <= c.blockSize
    && (i < |ids| - 1 ==> c.blocks[b].numTokens == c.blockSize)
  }

  ghost predicate IdsOk(c: Cache, ids: seq<nat>) {
    forall i: nat | i < |ids| :: EntryOk(c, ids, i)
  }

  ghost predicate TablesOk(c: Cache) {
    forall s | s in c.tables ::
      IdsOk(c, c.tables[s].blocks) && c.tables[s].numTokens == |Read(c.store, c.tables[s].blocks)|
  }

  ghost predicate InvExcept(c: Cache, loose: set<nat>) {
    && Shape(c)
    && FreeOk(c, loose)
    && RefOk(c)
    && IndexOk(c)
    && HashOk(c)
    && TablesOk(c)
  }

  ghost predicate Inv(c: Cache) {
    InvExcept(c, {})
  }

  // ----- steps -----

  /** c' differs from c neither in what the listed blocks hold nor in their fill. */
  ghost predicate Undisturbed(c: Cache, c': Cache, ids: seq<nat>) {
    && c'.blockSize == c.blockSize && |c'.blocks| == |c.blocks|
    && |c'.store| == |c.store| == |c.blocks| && InPool(c, ids)
    && (forall i :: 0 <= i < |ids| ==>
          c'.store[ids[i]] == c.store[ids[i]] && c'.blocks[ids[i]].numTokens == c.blocks[ids[i]].numTokens)
  }

  /** A step that gives s the table t and leaves every other table's blocks alone. */
  ghost predicate Retabled(c: Cache, c': Cache, s: SeqId, t: Table) {
    && c'.tables == c.tables[s := t]
    && (forall s' | s' in c.tables && s' != s :: Undisturbed(c, c', c.tables[s'].blocks))
    && IdsOk(c', t.blocks) && t.numTokens == |Read(c'.store, t.blocks)|
  }

  /** Blocks no table names. */
  function Unpinned(c: Cache): set<nat> {
    set b: nat | b < |c.blocks| && c.blocks[b].refCount == 0
  }

  ghost predicate AllFull(c: Cache, ids: seq<nat>) {
    forall i :: 0 <= i < |ids| ==> ids[i] < |c.blocks| && c.blocks[ids[i]].numTokens == c.blockSize
  }

  /** Block blk, hashed or not, is what a table reading `before` may be extended with. */
  ghost predicate Continues(c: Cache, before: seq<Token>, blk: Block, chunk: seq<Token>) {
    && 1 <= |chunk| == blk.numTokens <= c.blockSize
    && (blk.contentHash.Some? ==>
          var h := blk.contentHash.value;
          && h.Chain? && FullChain(h, c.blockSize) && h.chunk == chunk && Flat(h.prev) == before)
  }

  /** The state after filling the taken block b and appending it to the table of s. */
  ghost function Placed(c: Cache, s: SeqId, b: nat, blk: Block, chunk: seq<Token>, t: Table): Cache
    requires s in c.tables && b < |c.blocks| && b < |c.store|
  {
    c.(blocks := c.blocks[b := blk],
       store := c.store[b := Slots(Read(c.store, c.tables[s].blocks), chunk)],
       tables := c.tables[s := t],
       index := if blk.contentHash.Some? then c.index[blk.contentHash.value := b] else c.index)
  }

  ghost predicate CanPlace(c: Cache, s: SeqId, b: nat, blk: Block, chunk: seq<Token>, t: Table) {
    && InvExcept(c, {b}) && s in c.tables && b < |c.blocks| && b < |c.store|
    && c.blocks[b].refCount == 0 && blk.refCount == 1
    && AllFull(c, c.tables[s].blocks)
    && Continues(c, Read(c.store, c.tables[s].blocks), blk, chunk)
    && t.blocks == c.tables[s].blocks + [b]
    && t.numTokens == |Read(c.store, c.tables[s].blocks)| + |chunk|
    && (blk.contentHash.Some? ==> blk.contentHash.value !in c.index)
  }

  /** The state after the table of s starts sharing the cached block b. */
  ghost function Shared(c: Cache, s: SeqId, b: nat, t: Table): Cache
    requires s in c.tables && b < |c.blocks|
  {
    var blk := c.blocks[b];
    c.(blocks := c.blocks[b := blk.(refCount := blk.refCount + 1, lastUsed := c.clock)],
       tables := c.tables[s := t])
  }

  ghost predicate CanShare(c: Cache, s: SeqId, b: nat, t: Table) {
    && Inv(c) && s in c.tables && b < |c.blocks| && c.blocks[b].contentHash.Some?
    && AllFull(c, c.tables[s].blocks)
    && t.blocks == c.tables[s].blocks + [b] && t.numTokens == c.tables[s].numTokens + c.blockSize
    && c.blocks[b].contentHash.value.Chain?
    && Flat(c.blocks[b].contentHash.value.prev) == Read(c.store, c.tables[s].blocks)
  }

  /** The state in which the table under construction already belongs to s. */
  ghost function Pending(c: Cache, s: SeqId, t: Table, start: nat): Cache {
    c.(tables := c.tables[s := t.(numTokens := start)])
  }

  /** What holds each time round the allocation loop; `more` while chunks remain. */
  ghost predicate Placing(c: Cache, s: SeqId, t: Table, prefix: Hash, done: seq<Token>, more: bool) {
    Inv(Pending(c, s, t, |done|)) && Covers(c, s, t, prefix, done, more)
  }

  ghost predicate Covers(c: Cache, s: SeqId, t: Table, prefix: Hash, done: seq<Token>, more: bool) {
    && Shape(c) && InPool(c, t.blocks) && s !in c.tables
    && Read(c.store, t.blocks) == done
    && (more ==> AllFull(c, t.blocks))
    && (more && c.caching ==> FullChain(prefix, c.blockSize) && Flat(prefix) == done)
  }

  /** Only the table of s changes, and at most one unpinned block is used up. */
  ghost predicate OneStep(c: Cache, c': Cache) {
    && c' == c.(blocks := c'.blocks, store := c'.store, free := c'.free, index := c'.index)
    && |c'.blocks| == |c.blocks|
    && Unpinned(c') <= Unpinned(c) && |Unpinned(c)| <= |Unpinned(c')| + 1
  }

  ghost predicate CanMiss(c: Cache, s: SeqId, t: Table, prefix: Hash, done: seq<Token>, chunk: seq<Token>,
      hash: Option<Hash>) {
    && Placing(c, s, t, prefix, done, true)
    && 0 < |chunk| <= c.blockSize && Available(c) > 0
    && hash == (if |chunk| == c.blockSize && c.caching then Some(Chain(prefix, chunk)) else None)
    && (hash.Some? ==> hash.value !in c.index)
  }

  ghost predicate PoolOnly(c: Cache, c': Cache) {
    && c' == c.(blocks := c'.blocks, store := c'.store, free := c'.free, index := c'.index)
    && |c'.blocks| == |c.blocks|
  }

  /** The loop has placed the first `start` tokens for s, the abstract cache otherwise being v. */
  ghost predicate Going(c: Cache, s: SeqId, t: Table, prefix: Hash, toks: seq<Token>, start: nat,
      v: map<SeqId, seq<Token>>)
  {
    && start <= |toks| && c.blockSize > 0
    && Placing(c, s, t, prefix, toks[..start], start < |toks|)
    && View(Pending(c, s, t, start)) == v[s := toks[..start]]
  }

  /** Enough unpinned blocks remain for the tokens from `start` on. */
  ghost predicate Enough(c: Cache, toks: seq<Token>, start: nat) {
    c.blockSize > 0 && |Unpinned(c)| >= Chunks(|toks| - start, c.blockSize)
  }

  /** The loop, started in c, ended well in r. */
  ghost predicate Ended(c: Cache, r: Progress, s: SeqId, toks: seq<Token>, v: map<SeqId, seq<Token>>) {
    && r.Advance? && PoolOnly(c, r.cache)
    && Going(r.cache, s, r.table, r.prefix, toks, |toks|, v)
  }

  /** The parts of the state no operation changes. */
  ghost predicate Limits(c: Cache, c': Cache) {
    c'.blockSize == c.blockSize && c'.caching == c.caching && |c'.blocks| == |c.blocks|
  }

  /** The last block of a sequence's table. */
  function Last(c: Cache, s: SeqId): nat
    requires s in c.tables && c.tables[s].blocks != []
  {
    c.tables[s].blocks[|c.tables[s].blocks| - 1]
  }

  /** Whether growing s by a token takes a block: its last block is full, or shared. */
  predicate NeedsBlock(c: Cache, s: SeqId)
    requires c.blockSize > 0 && s in c.tables
  {
    || c.tables[s].numTokens % c.blockSize == 0
    || c.tables[s].blocks == []
    || (Last(c, s) < |c.blocks| && c.blocks[Last(c, s)].refCount > 1)
  }

  /** The last block of s is s's alone and has room. */
  ghost predicate Writable(c: Cache, s: SeqId) {
    && s in c.tables && c.tables[s].blocks != [] && Last(c, s) < |c.blocks|
    && c.blocks[Last(c, s)].refCount == 1
    && c.blocks[Last(c, s)].numTokens < c.blockSize
  }

  /** The state after s's last block has been copied into the taken block b. */
  ghost function Copied(c: Cache, s: SeqId, b: nat): Cache
    requires s in c.tables && c.tables[s].blocks != [] && |c.store| == |c.blocks|
    requires Last(c, s) < |c.blocks| && b < |c.blocks|
  {
    var t := c.tables[s];
    var o := Last(c, s);
    var shared := c.blocks[o];
    c.(blocks := c.blocks[b := Block(1, shared.numTokens, None, c.blocks[b].lastUsed)]
                         [o := shared.(refCount := shared.refCount - 1)],
       store := c.store[b := c.store[o]],
       tables := c.tables[s := t.(blocks := t.blocks[|t.blocks| - 1 := b])])
  }

  /** Block b is in no table and s has a last block to copy into it. */
  ghost predicate CopySpot(c: Cache, s: SeqId, b: nat) {
    && Shape(c) && b < |c.blocks|
    && s in c.tables && c.tables[s].blocks != []
    && forall s' | s' in c.tables :: b !in c.tables[s'].blocks
  }

  ghost predicate CanCopy(c: Cache, s: SeqId, b: nat) {
    && InvExcept(c, {b}) && CopySpot(c, s, b)
    && c.blocks[Last(c, s)].refCount > 1 && c.blocks[b].refCount == 0
  }
}
