/** The state of the paged KV cache as a value, what each of its operations does
    to that state, and the invariant every reachable state satisfies. The class
    in PagedKVCache.dfy performs the operations in place. */
module BlockPool {
  import opened Prelude

  type Token = int
  type SeqId = string

  /** A chained block hash: the hash of the preceding blocks and this block's
      tokens. As a datatype it is injective in both. */
  datatype Hash = Root | Chain(prev: Hash, chunk: seq<Token>)

  function Flat(h: Hash): seq<Token> {
    match h
    case Root => []
    case Chain(p, chunk) => Flat(p) + chunk
  }

  /** Every link of the chain covers one whole block. */
  predicate FullChain(h: Hash, blockSize: nat) {
    match h
    case Root => true
    case Chain(p, chunk) => |chunk| == blockSize && FullChain(p, blockSize)
  }

  datatype Block = Block(refCount: int, numTokens: nat, contentHash: Option<Hash>, lastUsed: int)

  /** What the backend has written into a block: the tokens whose keys and values
      it holds, and the tokens that preceded them when those were computed. */
  datatype Slots = Slots(context: seq<Token>, tokens: seq<Token>)

  datatype Table = Table(blocks: seq<nat>, numTokens: nat, numCached: nat)

  datatype Cache = Cache(
    blockSize: nat,
    caching: bool,
    blocks: seq<Block>,
    store: seq<Slots>,
    free: seq<nat>,
    tables: map<SeqId, Table>,
    index: map<Hash, nat>,
    clock: int)

  /** Every block id the state mentions names a block. */
  ghost predicate Shape(c: Cache) {
    && c.blockSize > 0
    && |c.store| == |c.blocks|
    && (forall i :: 0 <= i < |c.free| ==> c.free[i] < |c.blocks|)
    && (forall h :: h in c.index ==> c.index[h] < |c.blocks|)
    && (forall s :: s in c.tables ==> InPool(c, c.tables[s].blocks))
  }

  ghost predicate InPool(c: Cache, ids: seq<nat>) {
    forall i :: 0 <= i < |ids| ==> ids[i] < |c.blocks|
  }

  function Fresh(numBlocks: nat, blockSize: nat, caching: bool): Cache {
    Cache(blockSize, caching,
          seq(numBlocks, i => Block(0, 0, None, 0)),
          seq(numBlocks, i => Slots([], [])),
          seq(numBlocks, i requires 0 <= i < numBlocks => (numBlocks - 1 - i) as nat),
          map[], map[], 0)
  }

  // ----- capacity -----

  predicate Evictable(b: Block) {
    b.refCount == 0 && b.contentHash.Some?
  }

  function EvictableBlocks(c: Cache): set<nat> {
    set b: nat | b < |c.blocks| && Evictable(c.blocks[b])
  }

  function Available(c: Cache): nat {
    |c.free| + |EvictableBlocks(c)|
  }

  /** The part of the pool a watermark keeps back, cut toward zero. */
  function Reserve(numBlocks: nat, watermark: real): int {
    var x := numBlocks as real * watermark;
    if x >= 0.0 then x.Floor else -((-x).Floor)
  }

  predicate CanAllocate(c: Cache, n: int, watermark: real)
    requires c.blockSize > 0
  {
    Available(c) - CeilDiv(n, c.blockSize) >= Reserve(|c.blocks|, watermark)
  }

  // ----- taking a block -----

  /** The least recently used evictable block among the first n; the lowest id on a tie. */
  function Lru(blocks: seq<Block>, n: nat): (r: Option<nat>)
    requires n <= |blocks|
    ensures r.Some? ==> r.value < n && Evictable(blocks[r.value])
  {
    if n == 0 then None
    else
      var best := Lru(blocks, n - 1);
      if Evictable(blocks[n - 1]) && (best.None? || blocks[n - 1].lastUsed < blocks[best.value].lastUsed)
      then Some(n - 1)
      else best
  }

  datatype Taken = Exhausted | Taken(cache: Cache, id: nat)

  function Take(c: Cache): (r: Taken)
    requires Shape(c)
    ensures r.Taken? ==> Shape(r.cache) && r.id < |r.cache.blocks|
  {
    if |c.free| > 0 then
      Taken(c.(free := c.free[..|c.free| - 1]), c.free[|c.free| - 1])
    else
      match Lru(c.blocks, |c.blocks|)
      case None => Exhausted
      case Some(v) =>
        var b := c.blocks[v];
        Taken(c.(index := c.index - {b.contentHash.value},
                 blocks := c.blocks[v := b.(contentHash := None, numTokens := 0)]), v)
  }

  // ----- allocate -----

  datatype Outcome =
    | Done(cache: Cache)
    | AlreadyAllocated
    | OutOfCacheBlocks
    | SequenceNotFound

  datatype Progress = Stuck | Advance(cache: Cache, table: Table, prefix: Hash)

  /** Share the cached block the index gives for hash h. */
  function Hit(c: Cache, t: Table, h: Hash, size: nat): (r: Progress)
    requires Shape(c) && InPool(c, t.blocks) && h in c.index
    ensures r.Advance? && Shape(r.cache) && InPool(r.cache, r.table.blocks) && r.cache.blockSize == c.blockSize
  {
    var b := c.index[h];
    var blk := c.blocks[b];
    Advance(c.(blocks := c.blocks[b := blk.(refCount := blk.refCount + 1, lastUsed := c.clock)]),
            t.(blocks := t.blocks + [b], numCached := t.numCached + size), h)
  }

  /** Fill a block of our own with a chunk, and index it when it has a hash. */
  function Miss(c: Cache, t: Table, hash: Option<Hash>, before: seq<Token>, chunk: seq<Token>): (r: Progress)
    requires Shape(c) && InPool(c, t.blocks)
    ensures r.Advance? ==> Shape(r.cache) && InPool(r.cache, r.table.blocks) && r.cache.blockSize == c.blockSize
  {
    match Take(c)
    case Exhausted => Stuck
    case Taken(c1, b) =>
      var c2 := c1.(blocks := c1.blocks[b := Block(1, |chunk|, hash, c1.clock)],
                    store := c1.store[b := Slots(before, chunk)]);
      var t1 := t.(blocks := t.blocks + [b]);
      match hash
      case Some(h) => Advance(c2.(index := c2.index[h := b]), t1, h)
      case None => Advance(c2, t1, Root)
  }

  /** One turn of the allocation loop: place a chunk after the tokens before it. */
  function PlaceChunk(c: Cache, t: Table, prefix: Hash, before: seq<Token>, chunk: seq<Token>): (r: Progress)
    requires Shape(c) && InPool(c, t.blocks)
    ensures r.Advance? ==> Shape(r.cache) && InPool(r.cache, r.table.blocks) && r.cache.blockSize == c.blockSize
  {
    var shareable := |chunk| == c.blockSize && c.caching;
    var h := Chain(prefix, chunk);
    if shareable && h in c.index then Hit(c, t, h, |chunk|)
    else Miss(c, t, if shareable then Some(h) else None, before, chunk)
  }

  function PlaceAll(c: Cache, t: Table, prefix: Hash, toks: seq<Token>, start: nat): (r: Progress)
    requires Shape(c) && InPool(c, t.blocks) && start <= |toks|
    ensures r.Advance? ==> Shape(r.cache) && InPool(r.cache, r.table.blocks)
    decreases |toks| - start
  {
    if start == |toks| then Advance(c, t, prefix)
    else
      var next := Min(start + c.blockSize, |toks|);
      match PlaceChunk(c, t, prefix, toks[..start], toks[start..next])
      case Stuck => Stuck
      case Advance(c1, t1, p1) => PlaceAll(c1, t1, p1, toks, next)
  }

  function Allocate(c: Cache, s: SeqId, toks: seq<Token>, watermark: real): (r: Outcome)
    requires Shape(c)
    ensures r.Done? ==> Shape(r.cache)
  {
    if s in c.tables then AlreadyAllocated
    else if !CanAllocate(c, |toks|, watermark) then OutOfCacheBlocks
    else
      match PlaceAll(c, Table([], 0, 0), Root, toks, 0)
      case Stuck => OutOfCacheBlocks
      case Advance(c1, t, _) =>
        Done(c1.(tables := c1.tables[s := t.(numTokens := |toks|)], clock := c1.clock + 1))
  }

  // ----- append -----

  /** The tokens held by a list of blocks, read in order. */
  function Read(store: seq<Slots>, ids: seq<nat>): seq<Token> {
    if ids == [] then []
    else
      var b := ids[|ids| - 1];
      Read(store, ids[..|ids| - 1]) + if b < |store| then store[b].tokens else []
  }

  /** Give sequence s its own copy of its last block. */
  function CopyOnWrite(c: Cache, s: SeqId): (r: Option<Cache>)
    requires Shape(c) && s in c.tables && c.tables[s].blocks != []
    ensures r.Some? ==> Shape(r.value) && s in r.value.tables && r.value.tables[s].blocks != []
  {
    match Take(c)
    case Exhausted => None
    case Taken(c1, b) =>
      var t := c1.tables[s];
      var o := t.blocks[|t.blocks| - 1];
      var shared := c1.blocks[o];
      var copy := Block(1, shared.numTokens, None, c1.blocks[b].lastUsed);
      Some(c1.(blocks := c1.blocks[b := copy][o := shared.(refCount := shared.refCount - 1)],
               store := c1.store[b := c1.store[o]],
               tables := c1.tables[s := t.(blocks := t.blocks[|t.blocks| - 1 := b])]))
  }

  /** Add an empty block, owned by s alone, at the end of its table. */
  function Grow(c: Cache, s: SeqId): (r: Option<Cache>)
    requires Shape(c) && s in c.tables
    ensures r.Some? ==> Shape(r.value) && s in r.value.tables && r.value.tables[s].blocks != []
  {
    match Take(c)
    case Exhausted => None
    case Taken(c1, b) =>
      var t := c1.tables[s];
      Some(c1.(blocks := c1.blocks[b := Block(1, 0, None, c1.blocks[b].lastUsed)],
               store := c1.store[b := Slots(Read(c1.store, t.blocks), [])],
               tables := c1.tables[s := t.(blocks := t.blocks + [b])]))
  }

  /** Write one token into the next slot of the last block of s. */
  function WriteLast(c: Cache, s: SeqId, tok: Token): (r: Cache)
    requires Shape(c) && s in c.tables && c.tables[s].blocks != []
    ensures Shape(r)
  {
    var t := c.tables[s];
    var b := t.blocks[|t.blocks| - 1];
    var blk := c.blocks[b];
    c.(blocks := c.blocks[b := blk.(numTokens := blk.numTokens + 1, lastUsed := c.clock)],
       store := c.store[b := Slots(c.store[b].context, c.store[b].tokens + [tok])],
       tables := c.tables[s := t.(numTokens := t.numTokens + 1)],
       clock := c.clock + 1)
  }

  /** `append_token` itself never meets a table without blocks at a non-zero
      offset; the invariant excludes it, and this answer is then unused. */
  function Append(c: Cache, s: SeqId, tok: Token): (r: Outcome)
    requires Shape(c)
    ensures r.Done? ==> Shape(r.cache)
  {
    if s !in c.tables then SequenceNotFound
    else if c.tables[s].numTokens % c.blockSize == 0 then
      match Grow(c, s)
      case None => OutOfCacheBlocks
      case Some(c1) => Done(WriteLast(c1, s, tok))
    else if c.tables[s].blocks == [] then SequenceNotFound
    else
      var t := c.tables[s];
      if c.blocks[t.blocks[|t.blocks| - 1]].refCount > 1 then
        match CopyOnWrite(c, s)
        case None => OutOfCacheBlocks
        case Some(c1) => Done(WriteLast(c1, s, tok))
      else Done(WriteLast(c, s, tok))
  }

  // ----- fork and free -----

  function Retain(blocks: seq<Block>, ids: seq<nat>): (r: seq<Block>)
    requires forall i :: 0 <= i < |ids| ==> ids[i] < |blocks|
    ensures |r| == |blocks|
    decreases |ids|
  {
    if ids == [] then blocks
    else
      var b := blocks[ids[0]];
      Retain(blocks[ids[0] := b.(refCount := b.refCount + 1)], ids[1..])
  }

  function Fork(c: Cache, parent: SeqId, child: SeqId): Outcome
    requires Shape(c)
  {
    if parent !in c.tables then SequenceNotFound
    else
      var p := c.tables[parent];
      Done(c.(blocks := Retain(c.blocks, p.blocks), tables := c.tables[child := p]))
  }

  /** Drop one reference to each listed block; a block nobody shares any more and
      that holds no cached content goes back on the free list. */
  function Release(c: Cache, ids: seq<nat>): (r: Cache)
    requires Shape(c) && InPool(c, ids)
    ensures Shape(r) && |r.blocks| == |c.blocks|
    decreases |ids|
  {
    if ids == [] then c
    else
      var b := c.blocks[ids[0]];
      var b' := b.(refCount := b.refCount - 1);
      if b'.refCount == 0 && b'.contentHash.None? then
        Release(c.(blocks := c.blocks[ids[0] := b'.(numTokens := 0)], free := c.free + [ids[0]]), ids[1..])
      else
        Release(c.(blocks := c.blocks[ids[0] := b']), ids[1..])
  }

  /** Freeing an unknown sequence changes nothing. */
  function Free(c: Cache, s: SeqId): (r: Cache)
    requires Shape(c)
    ensures Shape(r)
  {
    if s !in c.tables then c
    else Release(c.(tables := c.tables - {s}), c.tables[s].blocks)
  }

  // ----- what a cache means -----

  /** The abstract cache: every live sequence with the tokens it reads back. */
  function View(c: Cache): map<SeqId, seq<Token>> {
    map s | s in c.tables :: Read(c.store, c.tables[s].blocks)
  }
}
