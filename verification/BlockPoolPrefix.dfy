/** Prefix caching: a prompt whose first blocks are cached gets just those blocks, and an allocation leaves every
    full block of its prompt cached. */
module BlockPoolPrefix {
  import opened Prelude
  import opened BlockPool
  import opened BlockPoolInvariant
  import opened BlockPoolSteps
  import opened BlockPoolAllocate
  import opened BlockPoolReuse

  // ----- cached prefixes -----

  /** The chained hash of the first i blocks of a prompt. */
  function ChainOf(toks: seq<Token>, blockSize: nat, i: nat): Hash
    requires i * blockSize <= |toks|
  {
    if i == 0 then Root
    else
      assert (i - 1) * blockSize + blockSize == i * blockSize;
      Chain(ChainOf(toks, blockSize, i - 1), toks[(i - 1) * blockSize..i * blockSize])
  }

  predicate IsCached(c: Cache, toks: seq<Token>, i: nat) {
    i * c.blockSize <= |toks| && ChainOf(toks, c.blockSize, i) in c.index
  }

  /** The pool holds the first block of the prompt, the first two, and so on up to m. */
  ghost predicate HoldsPrefix(c: Cache, toks: seq<Token>, m: nat) {
    m * c.blockSize <= |toks| && forall i: nat | 0 < i <= m :: IsCached(c, toks, i)
  }

  lemma NextChunk(toks: seq<Token>, blockSize: nat, i: nat)
    requires blockSize > 0 && (i + 1) * blockSize <= |toks|
    ensures i * blockSize + blockSize == (i + 1) * blockSize && i * blockSize < |toks|
    ensures ChainOf(toks, blockSize, i + 1) ==
      Chain(ChainOf(toks, blockSize, i), toks[i * blockSize..(i + 1) * blockSize])
  {
  }

  lemma FewerFit(i: nat, m: nat, blockSize: nat, n: nat)
    requires i <= m && m * blockSize <= n
    ensures i * blockSize <= m * blockSize <= n
  {
    assert (m - i) * blockSize >= 0;
  }

  lemma {:induction false} ChainLength(toks: seq<Token>, blockSize: nat, i: nat)
    requires i * blockSize <= |toks|
    ensures |Flat(ChainOf(toks, blockSize, i))| == i * blockSize
  {
    if i > 0 {
      assert (i - 1) * blockSize + blockSize == i * blockSize;
      ChainLength(toks, blockSize, i - 1);
    }
  }

  /** Chains of different lengths differ. */
  lemma ChainsDiffer(toks: seq<Token>, blockSize: nat, i: nat, j: nat)
    requires blockSize > 0 && i < j && j * blockSize <= |toks|
    ensures i * blockSize <= |toks| && ChainOf(toks, blockSize, i) != ChainOf(toks, blockSize, j)
  {
    FewerFit(i, j, blockSize, |toks|);
    ChainLength(toks, blockSize, i);
    ChainLength(toks, blockSize, j);
    MulAtLeast(j - i, blockSize);
    MulSub(j, i, blockSize);
  }

  lemma HitIs(c: Cache, t: Table, toks: seq<Token>, i: nat)
    requires Shape(c) && InPool(c, t.blocks) && c.caching && (i + 1) * c.blockSize <= |toks| && IsCached(c, toks, i + 1)
    ensures i * c.blockSize <= |toks|
    ensures var chain := ChainOf(toks, c.blockSize, i + 1);
      var chunk := toks[i * c.blockSize..(i + 1) * c.blockSize];
      PlaceChunk(c, t, ChainOf(toks, c.blockSize, i), toks[..i * c.blockSize], chunk) == Hit(c, t, chain, c.blockSize)
  {
    NextChunk(toks, c.blockSize, i);
  }

  lemma {:induction false} PlaceAllExtends(c: Cache, t: Table, prefix: Hash, toks: seq<Token>, start: nat)
    requires Shape(c) && InPool(c, t.blocks) && start <= |toks| && PlaceAll(c, t, prefix, toks, start).Advance?
    ensures var r := PlaceAll(c, t, prefix, toks, start);
      |t.blocks| <= |r.table.blocks| && r.table.blocks[..|t.blocks|] == t.blocks && r.table.numCached >= t.numCached
    decreases |toks| - start
  {
    hide PlaceChunk;
    if start < |toks| {
      var next := Min(start + c.blockSize, |toks|);
      var r := PlaceChunk(c, t, prefix, toks[..start], toks[start..next]);
      PlaceChunkStamps(c, t, prefix, toks[..start], toks[start..next]);
      PlaceAllExtends(r.cache, r.table, r.prefix, toks, next);
      CachedGrows(c, t, prefix, toks[..start], toks[start..next]);
    }
  }

  lemma CachedGrows(c: Cache, t: Table, prefix: Hash, before: seq<Token>, chunk: seq<Token>)
    requires Shape(c) && InPool(c, t.blocks) && PlaceChunk(c, t, prefix, before, chunk).Advance?
    ensures PlaceChunk(c, t, prefix, before, chunk).table.numCached >= t.numCached
  {
  }

  /** One hit on the way. */
  lemma SharesNext(c: Cache, t: Table, toks: seq<Token>, i: nat, m: nat)
    requires Shape(c) && InPool(c, t.blocks) && c.caching && i < m && HoldsPrefix(c, toks, m)
    ensures i * c.blockSize <= |toks| && (i + 1) * c.blockSize <= |toks| && IsCached(c, toks, i + 1)
    ensures var chain := ChainOf(toks, c.blockSize, i + 1);
      var h := Hit(c, t, chain, c.blockSize);
      && h.prefix == chain && h.table.blocks == t.blocks + [c.index[chain]]
      && h.table.numCached == t.numCached + c.blockSize
      && h.cache.index == c.index && h.cache.caching && HoldsPrefix(h.cache, toks, m)
      && PlaceAll(c, t, ChainOf(toks, c.blockSize, i), toks, i * c.blockSize)
         == PlaceAll(h.cache, h.table, chain, toks, (i + 1) * c.blockSize)
  {
    hide PlaceChunk, PlaceAll, ChainOf;
    FewerFit(i + 1, m, c.blockSize, |toks|);
    NextChunk(toks, c.blockSize, i);
    HitIs(c, t, toks, i);
    PlaceAllUnfolds(c, t, ChainOf(toks, c.blockSize, i), toks, i * c.blockSize);
    var h := Hit(c, t, ChainOf(toks, c.blockSize, i + 1), c.blockSize);
    forall j: nat | 0 < j <= m ensures IsCached(h.cache, toks, j) {
      assert IsCached(c, toks, j);
    }
  }

  /** From block i on: the cached blocks of the prefix go into the table, one after the other. */
  lemma {:induction false} PlaceAllShares(c: Cache, t: Table, toks: seq<Token>, i: nat, m: nat)
    requires Shape(c) && InPool(c, t.blocks) && c.caching && i <= m && HoldsPrefix(c, toks, m) && |t.blocks| == i
    requires i * c.blockSize <= |toks|
    requires PlaceAll(c, t, ChainOf(toks, c.blockSize, i), toks, i * c.blockSize).Advance?
    ensures var r := PlaceAll(c, t, ChainOf(toks, c.blockSize, i), toks, i * c.blockSize);
      && |r.table.blocks| >= m && r.table.blocks[..i] == t.blocks
      && r.table.numCached >= t.numCached + Product(c.blockSize, m - i)
      && forall j: nat | i < j <= m ::
           IsCached(c, toks, j) && r.table.blocks[j - 1] == c.index[ChainOf(toks, c.blockSize, j)]
    decreases m - i
  {
    hide PlaceAll, Product, Hit, ChainOf, Shape, InPool;
    ProductNext(c.blockSize, m - i - 1);
    if i == m {
      PlaceAllExtends(c, t, ChainOf(toks, c.blockSize, i), toks, i * c.blockSize);
    } else {
      SharesNext(c, t, toks, i, m);
      var h := Hit(c, t, ChainOf(toks, c.blockSize, i + 1), c.blockSize);
      PlaceAllShares(h.cache, h.table, toks, i + 1, m);
      var r := PlaceAll(h.cache, h.table, h.prefix, toks, (i + 1) * c.blockSize);
      assert r.table.blocks[i] == r.table.blocks[..i + 1][i] == h.table.blocks[i];
      assert r.table.blocks[..i] == r.table.blocks[..i + 1][..i] == t.blocks;
    }
  }

  /** A prompt whose first m blocks are cached gets just those blocks, and takes none for them. */
  lemma PrefixIsShared(c: Cache, s: SeqId, toks: seq<Token>, watermark: real, m: nat)
    requires Shape(c) && c.caching && HoldsPrefix(c, toks, m) && Allocate(c, s, toks, watermark).Done?
    ensures var c' := Allocate(c, s, toks, watermark).cache;
      && s in c'.tables && |c'.tables[s].blocks| >= m && c'.tables[s].numCached >= Product(c.blockSize, m)
      && forall j: nat | 0 < j <= m ::
           IsCached(c, toks, j) && c'.tables[s].blocks[j - 1] == c.index[ChainOf(toks, c.blockSize, j)]
  {
    hide PlaceAll, CanAllocate, Product;
    PlaceAllShares(c, Table([], 0, 0), toks, 0, m);
  }

  /** How many of the prompt's blocks after the i-th, up to the m-th, are cached. */
  function CachedAfter(c: Cache, toks: seq<Token>, i: nat, m: nat): nat
    decreases m
  {
    if m <= i then 0 else CachedAfter(c, toks, i, m - 1) + if IsCached(c, toks, m) then 1 else 0
  }

  lemma {:induction false} CachedFewer(c: Cache, c': Cache, toks: seq<Token>, i: nat, m: nat)
    requires forall j: nat | i < j <= m && IsCached(c', toks, j) :: IsCached(c, toks, j)
    ensures CachedAfter(c', toks, i, m) <= CachedAfter(c, toks, i, m)
  {
    hide IsCached;
    if m > i {
      CachedFewer(c, c', toks, i, m - 1);
    }
  }

  lemma {:induction false} CachedFirst(c: Cache, toks: seq<Token>, i: nat, m: nat)
    requires i < m
    ensures CachedAfter(c, toks, i, m) == CachedAfter(c, toks, i + 1, m) + if IsCached(c, toks, i + 1) then 1 else 0
  {
    hide IsCached;
    if m > i + 1 {
      CachedFirst(c, toks, i, m - 1);
    }
  }

  /** One chunk placed after i others counts as cached only if its block was, and adds to the index at most
      itself. */
  lemma ChunkCounts(c: Cache, t: Table, toks: seq<Token>, i: nat, start: nat, next: nat)
    requires Shape(c) && InPool(c, t.blocks) && start == i * c.blockSize < next <= |toks| && next <= start + c.blockSize
    requires PlaceChunk(c, t, ChainOf(toks, c.blockSize, i), toks[..start], toks[start..next]).Advance?
    ensures var r := PlaceChunk(c, t, ChainOf(toks, c.blockSize, i), toks[..start], toks[start..next]);
      && r.table.numCached
         <= t.numCached + (if next == start + c.blockSize && IsCached(c, toks, i + 1) then c.blockSize else 0)
      && (next == start + c.blockSize && c.caching ==> r.prefix == ChainOf(toks, c.blockSize, i + 1))
      && r.cache.caching == c.caching
      && forall j: nat | j > i + 1 && IsCached(r.cache, toks, j) :: IsCached(c, toks, j)
  {
    var chunk := toks[start..next];
    var h := Chain(ChainOf(toks, c.blockSize, i), chunk);
    hide ChainOf, Take;
    if |chunk| == c.blockSize {
      NextChunk(toks, c.blockSize, i);
    }
    var r := PlaceChunk(c, t, ChainOf(toks, c.blockSize, i), toks[..start], chunk);
    forall j: nat | j > i + 1 && IsCached(r.cache, toks, j) ensures IsCached(c, toks, j) {
      LaterChain(toks, c.blockSize, i, j, start, next);
      TakeIndexes(c);
    }
  }

  lemma LaterChain(toks: seq<Token>, blockSize: nat, i: nat, j: nat, start: nat, next: nat)
    requires blockSize > 0 && j > i + 1 && j * blockSize <= |toks| && start == i * blockSize < next <= |toks|
    requires next <= start + blockSize
    ensures ChainOf(toks, blockSize, j) != Chain(ChainOf(toks, blockSize, i), toks[start..next])
  {
    ChainLength(toks, blockSize, j);
    ChainLength(toks, blockSize, i);
    MulAtLeast(j - i - 1, blockSize);
    MulSub(j, i + 1, blockSize);
    assert (i + 1) * blockSize == start + blockSize;
  }

  lemma TakeIndexes(c: Cache)
    requires Shape(c)
    ensures Take(c).Taken? ==>
      forall h | h in Take(c).cache.index :: h in c.index && Take(c).cache.index[h] == c.index[h]
    ensures Take(c).Taken? ==> Take(c).cache.blockSize == c.blockSize && Take(c).cache.caching == c.caching
  {
  }

  lemma {:induction false} PlaceAllCounts(c: Cache, t: Table, toks: seq<Token>, i: nat, start: nat, full: nat)
    requires c.blockSize > 0 && full == |toks| / c.blockSize && c.caching && start == i * c.blockSize <= |toks|
    requires Shape(c) && InPool(c, t.blocks)
    requires PlaceAll(c, t, ChainOf(toks, c.blockSize, i), toks, start).Advance?
    ensures PlaceAll(c, t, ChainOf(toks, c.blockSize, i), toks, start).table.numCached
         <= t.numCached + Product(c.blockSize, CachedAfter(c, toks, i, full))
    decreases |toks| - start
  {
    hide PlaceChunk, PlaceAll, ChainOf, IsCached, InPool, Product, CachedAfter;
    var prefix := ChainOf(toks, c.blockSize, i);
    CountsNothing(c, toks, i, full);
    if start == |toks| {
      PlacedAll(c, t, prefix, toks);
    } else {
      var next := Min(start + c.blockSize, |toks|);
      var r := PlaceChunk(c, t, prefix, toks[..start], toks[start..next]);
      PlaceAllUnfolds(c, t, prefix, toks, start);
      ChunkCounts(c, t, toks, i, start, next);
      if start + c.blockSize <= |toks| {
        NextFits(i, start, c.blockSize, |toks|);
        PlaceAllCounts(r.cache, r.table, toks, i + 1, next, full);
        CachedFewer(c, r.cache, toks, i + 1, full);
        CachedFirst(c, toks, i, full);
        ProductGrows(c.blockSize, CachedAfter(r.cache, toks, i + 1, full), CachedAfter(c, toks, i + 1, full));
        ProductNext(c.blockSize, CachedAfter(c, toks, i + 1, full));
      } else {
        PlacedAll(r.cache, r.table, r.prefix, toks);
      }
    }
  }

  lemma NextFits(i: nat, start: nat, b: nat, n: nat)
    requires b > 0 && start == i * b && start + b <= n
    ensures start + b == (i + 1) * b && i < n / b
  {
    assert n == n / b * b + n % b;
    if n / b <= i {
      FewerFit(n / b, i, b, start);
    }
  }

  lemma CountsNothing(c: Cache, toks: seq<Token>, i: nat, full: nat)
    ensures CachedAfter(c, toks, i, full) >= 0 && Product(c.blockSize, CachedAfter(c, toks, i, full)) >= 0
  {
    ProductGrows(c.blockSize, 0, CachedAfter(c, toks, i, full));
    ProductNext(c.blockSize, 0);
  }

  /** No more tokens are reported as cached than stand in blocks of the prompt that were. */
  lemma CachedTokensCount(c: Cache, s: SeqId, toks: seq<Token>, watermark: real, full: nat)
    requires Shape(c) && c.caching && full == |toks| / c.blockSize && Allocate(c, s, toks, watermark).Done?
    ensures var c' := Allocate(c, s, toks, watermark).cache;
      s in c'.tables && c'.tables[s].numCached <= Product(c.blockSize, CachedAfter(c, toks, 0, full))
  {
    hide PlaceAll, CanAllocate, ChainOf, Product, CachedAfter;
    StartsAtRoot(toks, c.blockSize);
    PlaceAllCounts(c, Table([], 0, 0), toks, 0, 0, full);
  }

  // ----- what an allocation leaves cached -----

  /** The first i blocks of the table are the cached ones of the prompt's first i chunks. */
  ghost predicate Registered(c: Cache, ids: seq<nat>, toks: seq<Token>, i: nat) {
    && i <= |ids|
    && forall j: nat | 0 < j <= i :: IsCached(c, toks, j) && c.index[ChainOf(toks, c.blockSize, j)] == ids[j - 1]
  }

  /** A miss evicts no block of the table under construction. */
  lemma MissKeepsIndexed(c: Cache, s: SeqId, t: Table, n: nat, h: Hash)
    requires Shape(c) && Inv(Pending(c, s, t, n)) && Take(c).Taken?
    requires h in c.index && c.index[h] in t.blocks
    ensures h in Take(c).cache.index && Take(c).cache.index[h] == c.index[h]
  {
    hide HashOk, TablesOk, FreeOk;
    var w := Pending(c, s, t, n);
    UserCounts(w.tables, s, c.index[h]);
    assert w.blocks[c.index[h]].refCount > 0;
    LruIsLeast(c.blocks, |c.blocks|);
  }

  /** A chunk placed after a registered table keeps it registered, and registers a full chunk. */
  ghost predicate Continued(c: Cache, r: Progress, toks: seq<Token>, i: nat, chunk: seq<Token>)
    requires i * c.blockSize <= |toks|
  {
    && r.Advance? && Registered(r.cache, r.table.blocks, toks, i) && |r.table.blocks| == i + 1
    && r.cache.caching == c.caching && r.cache.blockSize == c.blockSize
    && (c.caching && |chunk| == c.blockSize ==>
          && r.prefix == Chain(ChainOf(toks, c.blockSize, i), chunk)
          && r.prefix in r.cache.index && r.cache.index[r.prefix] == r.table.blocks[i])
  }

  lemma StaysOnHit(c: Cache, t: Table, toks: seq<Token>, i: nat, chunk: seq<Token>)
    requires Shape(c) && InPool(c, t.blocks) && i * c.blockSize <= |toks|
    requires Registered(c, t.blocks, toks, i) && |t.blocks| == i
    requires Chain(ChainOf(toks, c.blockSize, i), chunk) in c.index
    ensures Continued(c, Hit(c, t, Chain(ChainOf(toks, c.blockSize, i), chunk), |chunk|), toks, i, chunk)
  {
    hide ChainOf, Shape, InPool;
    var r := Hit(c, t, Chain(ChainOf(toks, c.blockSize, i), chunk), |chunk|);
    forall j: nat | 0 < j <= i
      ensures IsCached(r.cache, toks, j) && r.cache.index[ChainOf(toks, c.blockSize, j)] == r.table.blocks[j - 1]
    {
      assert IsCached(c, toks, j);
    }
  }

  lemma StaysOnMiss(c: Cache, s: SeqId, t: Table, toks: seq<Token>, i: nat, chunk: seq<Token>, n: nat,
      hash: Option<Hash>)
    requires Shape(c) && InPool(c, t.blocks) && Inv(Pending(c, s, t, n)) && i * c.blockSize <= |toks|
    requires Registered(c, t.blocks, toks, i) && |t.blocks| == i && 0 < |chunk|
    requires hash ==
      if |chunk| == c.blockSize && c.caching then Some(Chain(ChainOf(toks, c.blockSize, i), chunk)) else None
    requires Take(c).Taken?
    ensures Continued(c, Miss(c, t, hash, toks[..i * c.blockSize], chunk), toks, i, chunk)
  {
    hide ChainOf, Inv, Take, Pending;
    var r := Miss(c, t, hash, toks[..i * c.blockSize], chunk);
    var c1, b := Take(c).cache, Take(c).id;
    TakeTouches(c);
    assert r.cache.index == if hash.Some? then c1.index[hash.value := b] else c1.index;
    assert r.table.blocks == t.blocks + [b];
    forall j: nat | 0 < j <= i
      ensures IsCached(r.cache, toks, j) && r.cache.index[ChainOf(toks, c.blockSize, j)] == r.table.blocks[j - 1]
    {
      assert IsCached(c, toks, j);
      assert t.blocks[j - 1] in t.blocks;
      MissKeepsIndexed(c, s, t, n, ChainOf(toks, c.blockSize, j));
      NoLoop(toks, c.blockSize, i, j, chunk);
    }
  }

  lemma TakeTouches(c: Cache)
    requires Shape(c) && Take(c).Taken?
    ensures var c1 := Take(c).cache; c1 == c.(free := c1.free, index := c1.index, blocks := c1.blocks)
  {
  }

  lemma StaysRegistered(c: Cache, s: SeqId, t: Table, toks: seq<Token>, i: nat, chunk: seq<Token>, n: nat)
    requires Shape(c) && InPool(c, t.blocks) && Inv(Pending(c, s, t, n)) && i * c.blockSize <= |toks|
    requires Registered(c, t.blocks, toks, i) && |t.blocks| == i && 0 < |chunk| <= c.blockSize
    requires PlaceChunk(c, t, ChainOf(toks, c.blockSize, i), toks[..i * c.blockSize], chunk).Advance?
    ensures var r := PlaceChunk(c, t, ChainOf(toks, c.blockSize, i), toks[..i * c.blockSize], chunk);
      Continued(c, r, toks, i, chunk)
  {
    hide Inv, ChainOf, Continued, Hit, Pending;
    var shareable, h := |chunk| == c.blockSize && c.caching, Chain(ChainOf(toks, c.blockSize, i), chunk);
    if shareable && h in c.index {
      StaysOnHit(c, t, toks, i, chunk);
    } else {
      StaysOnMiss(c, s, t, toks, i, chunk, n, if shareable then Some(h) else None);
    }
  }

  lemma NoLoop(toks: seq<Token>, blockSize: nat, i: nat, j: nat, chunk: seq<Token>)
    requires j <= i && i * blockSize <= |toks| && |chunk| > 0
    ensures j * blockSize <= |toks| && Chain(ChainOf(toks, blockSize, i), chunk) != ChainOf(toks, blockSize, j)
  {
    FewerFit(j, i, blockSize, |toks|);
    ChainLength(toks, blockSize, i);
    ChainLength(toks, blockSize, j);
  }

  lemma GoingPending(c: Cache, s: SeqId, t: Table, prefix: Hash, toks: seq<Token>, start: nat,
      v: map<SeqId, seq<Token>>)
    requires Going(c, s, t, prefix, toks, start, v)
    ensures start <= |toks| && Inv(Pending(c, s, t, start))
  {
    hide Inv, Covers, View, Pending;
  }

  lemma RegistersNext(c: Cache, s: SeqId, t: Table, toks: seq<Token>, i: nat, start: nat, next: nat,
      v: map<SeqId, seq<Token>>)
    requires Shape(c) && InPool(c, t.blocks) && start == i * c.blockSize
    requires start < next <= |toks| && next <= start + c.blockSize
    requires Going(c, s, t, ChainOf(toks, c.blockSize, i), toks, start, v)
    requires Registered(c, t.blocks, toks, i) && |t.blocks| == i
    requires PlaceChunk(c, t, ChainOf(toks, c.blockSize, i), toks[..start], toks[start..next]).Advance?
    ensures var r := PlaceChunk(c, t, ChainOf(toks, c.blockSize, i), toks[..start], toks[start..next]);
      Continued(c, r, toks, i, toks[start..next])
  {
    hide PlaceChunk, ChainOf, Continued, Inv, Pending, Registered, Going, Shape, InPool;
    GoingPending(c, s, t, ChainOf(toks, c.blockSize, i), toks, start, v);
    StaysRegistered(c, s, t, toks, i, toks[start..next], start);
  }

  lemma {:induction false} PlaceAllRegisters(c: Cache, s: SeqId, t: Table, toks: seq<Token>, i: nat, start: nat,
      v: map<SeqId, seq<Token>>, full: nat)
    requires c.blockSize > 0 && full == |toks| / c.blockSize && c.caching && start == i * c.blockSize <= |toks|
    requires Shape(c) && InPool(c, t.blocks) && |t.blocks| == i
    requires PlaceAll(c, t, ChainOf(toks, c.blockSize, i), toks, start).Advance?
    requires Registered(c, t.blocks, toks, i)
    requires Going(c, s, t, ChainOf(toks, c.blockSize, i), toks, start, v)
    ensures var r := PlaceAll(c, t, ChainOf(toks, c.blockSize, i), toks, start);
      r.cache.blockSize == c.blockSize && r.cache.caching && Registered(r.cache, r.table.blocks, toks, full)
    decreases |toks| - start
  {
    hide PlaceChunk, PlaceAll, ChainOf, Going, Registered, OneStep, Enough, InPool;
    var prefix := ChainOf(toks, c.blockSize, i);
    if start == |toks| {
      DivModOf(|toks|, i, c.blockSize, 0);
      PlacedAll(c, t, prefix, toks);
    } else {
      var next := Min(start + c.blockSize, |toks|);
      var r := PlaceChunk(c, t, prefix, toks[..start], toks[start..next]);
      PlaceAllUnfolds(c, t, prefix, toks, start);
      PlaceStep(c, s, t, prefix, toks, start, v);
      RegistersNext(c, s, t, toks, i, start, next, v);
      if start + c.blockSize <= |toks| {
        FullRegistered(c, r, toks, i);
        PlaceAllRegisters(r.cache, s, r.table, toks, i + 1, next, v, full);
      } else {
        DivModOf(|toks|, i, c.blockSize, |toks| - start);
        PlacedAll(r.cache, r.table, r.prefix, toks);
      }
    }
  }

  lemma FullRegistered(c: Cache, r: Progress, toks: seq<Token>, i: nat)
    requires c.caching && c.blockSize > 0 && i * c.blockSize + c.blockSize <= |toks|
    requires Continued(c, r, toks, i, toks[i * c.blockSize..i * c.blockSize + c.blockSize])
    ensures (i + 1) * c.blockSize == i * c.blockSize + c.blockSize && r.prefix == ChainOf(toks, c.blockSize, i + 1)
    ensures Registered(r.cache, r.table.blocks, toks, i + 1)
  {
    hide Flat;
    NextChunk(toks, c.blockSize, i);
    forall j: nat | 0 < j <= i + 1
      ensures IsCached(r.cache, toks, j) && r.cache.index[ChainOf(toks, c.blockSize, j)] == r.table.blocks[j - 1]
    {
      if j <= i {
        assert IsCached(r.cache, toks, j);
      }
    }
  }

  /** After an allocation every full block of the prompt is cached, and is the one in its table. */
  lemma AllocateRegisters(c: Cache, s: SeqId, toks: seq<Token>, watermark: real)
    requires Inv(c) && c.caching && Allocate(c, s, toks, watermark).Done?
    ensures var c' := Allocate(c, s, toks, watermark).cache;
      && c'.caching && c'.blockSize == c.blockSize && s in c'.tables
      && Registered(c', c'.tables[s].blocks, toks, |toks| / c.blockSize)
  {
    hide PlaceAll, CanAllocate, ChainOf, Inv, View;
    var t := Table([], 0, 0);
    assert s !in c.tables;
    EmptyTablePlacing(c, s, 0 < |toks|);
    assert toks[..0] == [];
    StartsAtRoot(toks, c.blockSize);
    PlaceAllRegisters(c, s, t, toks, 0, 0, View(c), |toks| / c.blockSize);
    SameRegistered(PlaceAll(c, t, Root, toks, 0).cache, Allocate(c, s, toks, watermark).cache,
      PlaceAll(c, t, Root, toks, 0).table.blocks, toks, |toks| / c.blockSize);
  }

  lemma StartsAtRoot(toks: seq<Token>, blockSize: nat)
    ensures ChainOf(toks, blockSize, 0) == Root
  {
  }

  lemma SameRegistered(c: Cache, c': Cache, ids: seq<nat>, toks: seq<Token>, i: nat)
    requires Registered(c, ids, toks, i) && c'.index == c.index && c'.blockSize == c.blockSize
    ensures Registered(c', ids, toks, i)
  {
    forall j: nat | 0 < j <= i
      ensures IsCached(c', toks, j) && c'.index[ChainOf(toks, c'.blockSize, j)] == ids[j - 1]
    {
      assert IsCached(c, toks, j);
    }
  }

  /** Allocating the same prompt again shares every full block of it. */
  lemma RepeatShares(c: Cache, s: SeqId, s': SeqId, toks: seq<Token>, watermark: real, full: nat)
    requires c.blockSize > 0 && full == |toks| / c.blockSize
    requires Inv(c) && c.caching && Allocate(c, s, toks, watermark).Done?
    requires Allocate(Allocate(c, s, toks, watermark).cache, s', toks, watermark).Done?
    ensures var c1 := Allocate(c, s, toks, watermark).cache;
      var c2 := Allocate(c1, s', toks, watermark).cache;
      && s in c1.tables && s' in c2.tables && |c1.tables[s].blocks| >= full && |c2.tables[s'].blocks| >= full
      && c2.tables[s'].blocks[..full] == c1.tables[s].blocks[..full]
      && c2.tables[s'].numCached >= Product(c.blockSize, full)
  {
    hide Allocate, FreeOk, RefOk, IndexOk, HashOk, TablesOk, ChainOf, Product;
    AllocateRegisters(c, s, toks, watermark);
    var c1 := Allocate(c, s, toks, watermark).cache;
    assert full * c.blockSize <= |toks|;
    assert HoldsPrefix(c1, toks, full);
    PrefixIsShared(c1, s', toks, watermark, full);
    var c2 := Allocate(c1, s', toks, watermark).cache;
    forall k | 0 <= k < full ensures c2.tables[s'].blocks[k] == c1.tables[s].blocks[k] {
      assert IsCached(c1, toks, k + 1);
    }
  }

  // ----- without prefix caching -----

  lemma {:induction false} PlaceAllAlone(c: Cache, t: Table, prefix: Hash, toks: seq<Token>, start: nat)
    requires Shape(c) && InPool(c, t.blocks) && start <= |toks| && !c.caching
    requires PlaceAll(c, t, prefix, toks, start).Advance?
    ensures var r := PlaceAll(c, t, prefix, toks, start);
      r.table.numCached == t.numCached && r.cache.index.Keys <= c.index.Keys
    decreases |toks| - start
  {
    if start < |toks| {
      var next := Min(start + c.blockSize, |toks|);
      var r := PlaceChunk(c, t, prefix, toks[..start], toks[start..next]);
      PlaceAllAlone(r.cache, r.table, r.prefix, toks, next);
    }
  }

  /** With prefix caching off nothing is shared and nothing becomes cached. */
  lemma CachingIsOptional(c: Cache, s: SeqId, toks: seq<Token>, watermark: real)
    requires Shape(c) && !c.caching && Allocate(c, s, toks, watermark).Done?
    ensures var c' := Allocate(c, s, toks, watermark).cache;
      s in c'.tables && c'.tables[s].numCached == 0 && c'.index.Keys <= c.index.Keys
  {
    hide PlaceAll, CanAllocate;
    PlaceAllAlone(c, Table([], 0, 0), Root, toks, 0);
  }
}
