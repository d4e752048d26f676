/** The block allocator itself, updating its fields in place. Each method performs the
    operation of the same name on the state described in BlockPool.dfy, and so keeps
    the invariant and acts on the sequences' contents as proved there. */
module PagedKVCache {
  import opened Prelude
  import opened BlockPool
  import opened BlockPoolInvariant
  import BlockPoolAllocate
  import BlockPoolAppend
  import BlockPoolFork
  import BlockPoolRuns
  import BlockPoolReuse

  datatype Status = Ok | ErrAlreadyAllocated | ErrOutOfCacheBlocks | ErrSequenceNotFound

  ghost predicate Answers(r: Status, outcome: Outcome) {
    match outcome
    case Done(_) => r == Ok
    case AlreadyAllocated => r == ErrAlreadyAllocated
    case OutOfCacheBlocks => r == ErrOutOfCacheBlocks
    case SequenceNotFound => r == ErrSequenceNotFound
  }

  class KVCache {
    const blockSize: nat
    const caching: bool
    var blocks: seq<Block>
    var free: seq<nat>
    var tables: map<SeqId, Table>
    var index: map<Hash, nat>
    var clock: int
    /** What the backend has written into each block. */
    ghost var store: seq<Slots>

    ghost function State(): BlockPool.Cache
      reads this
    {
      BlockPool.Cache(blockSize, caching, blocks, store, free, tables, index, clock)
    }

    ghost predicate Valid()
      reads this
    {
      Inv(State())
    }

    /** Every live sequence with its tokens. */
    ghost function Contents(): map<SeqId, seq<Token>>
      reads this
    {
      View(State())
    }

    constructor (numBlocks: nat, blockSize: nat, caching: bool)
      requires blockSize > 0
      ensures State() == Fresh(numBlocks, blockSize, caching)
      ensures Valid() && Contents() == map[]
    {
      this.blockSize, this.caching := blockSize, caching;
      blocks := seq(numBlocks, i => Block(0, 0, None, 0));
      store := seq(numBlocks, i => Slots([], []));
      free := seq(numBlocks, i requires 0 <= i < numBlocks => (numBlocks - 1 - i) as nat);
      tables, index, clock := map[], map[], 0;
      new;
      BlockPoolRuns.FreshIsEmpty(numBlocks, blockSize, caching);
    }

    // ----- capacity -----

    method NumEvictable() returns (n: nat)
      requires Shape(State())
      ensures n == |EvictableBlocks(State())|
    {
      n := 0;
      ghost var seen: set<nat> := {};
      for i := 0 to |blocks|
        invariant seen == set b: nat | b < |blocks| && b < i && Evictable(blocks[b])
        invariant n == |seen|
      {
        if Evictable(blocks[i]) {
          n := n + 1;
          seen := seen + {i};
        }
      }
      assert seen == EvictableBlocks(State());
    }

    method CanAllocate(numTokens: int, watermark: real) returns (ok: bool)
      requires Shape(State())
      ensures ok <==> BlockPool.CanAllocate(State(), numTokens, watermark)
      ensures Valid() ==> (ok <==> BlockPoolReuse.LeavesReserve(State(), numTokens, watermark))
    {
      var evictable := NumEvictable();
      var need := CeilDiv(numTokens, blockSize);
      ok := |free| + evictable - need >= Reserve(|blocks|, watermark);
      if Valid() {
        BlockPoolReuse.AdmitsWhatLeavesReserve(State(), numTokens, watermark);
      }
    }

    // ----- taking a block -----

    /** Reclaims the least recently used unreferenced cached block, if there is one. */
    method Evict() returns (victim: Option<nat>)
      requires Shape(State())
      modifies this
      ensures victim == Lru(old(blocks), |old(blocks)|)
      ensures victim.None? ==> State() == old(State())
      ensures victim.Some? ==>
        var b := old(blocks)[victim.value];
        State() == old(State()).(index := old(index) - {b.contentHash.value},
                                 blocks := old(blocks)[victim.value := b.(contentHash := None, numTokens := 0)])
    {
      var best: Option<nat> := None;
      for i := 0 to |blocks|
        invariant best == Lru(blocks, i)
        invariant State() == old(State())
      {
        if Evictable(blocks[i]) {
          if best.None? || blocks[i].lastUsed < blocks[best.value].lastUsed {
            best := Some(i);
          }
        }
      }
      if best.None? {
        return None;
      }
      var b := blocks[best.value];
      index := index - {b.contentHash.value};
      blocks := blocks[best.value := b.(contentHash := None, numTokens := 0)];
      victim := best;
    }

    method TakeFreeBlock() returns (r: Option<nat>)
      requires Shape(State())
      modifies this
      ensures r.None? <==> Take(old(State())).Exhausted?
      ensures r.None? ==> State() == old(State())
      ensures r.Some? ==> Take(old(State())) == Taken(State(), r.value)
    {
      if |free| > 0 {
        var id := free[|free| - 1];
        free := free[..|free| - 1];
        return Some(id);
      }
      r := Evict();
    }

    // ----- sequences -----

    /** Reserves blocks for a prompt, sharing every cached block of its prefix. */
    method Allocate(s: SeqId, toks: seq<Token>, watermark: real) returns (r: Status)
      requires Valid()
      modifies this
      ensures Answers(r, BlockPool.Allocate(old(State()), s, toks, watermark))
      ensures r == Ok ==> Done(State()) == BlockPool.Allocate(old(State()), s, toks, watermark)
      ensures r == ErrAlreadyAllocated <==> s in old(tables)
      ensures r == Ok ==> Valid() && Contents() == old(Contents())[s := toks]
      ensures s in old(tables) || !BlockPool.CanAllocate(old(State()), |toks|, watermark) ==>
        State() == old(State()) && r != Ok
      ensures Reserve(|old(blocks)|, watermark) >= 0 ==>
        (r == Ok <==> s !in old(tables) && BlockPoolReuse.LeavesReserve(old(State()), |toks|, watermark))
    {
      hide FreeOk, RefOk, IndexOk, HashOk, TablesOk, View, BlockPool.CanAllocate, PlaceAll;
      if s in tables {
        return ErrAlreadyAllocated;
      }
      var admitted := CanAllocate(|toks|, watermark);
      if !admitted {
        return ErrOutOfCacheBlocks;
      }
      BlockPoolAllocate.AllocateKeeps(State(), s, toks, watermark);
      var placed, table := PlaceTokens(toks);
      if !placed {
        return ErrOutOfCacheBlocks;
      }
      tables := tables[s := table.(numTokens := |toks|)];
      clock := clock + 1;
      r := Ok;
    }

    /** The allocation loop. */
    method PlaceTokens(toks: seq<Token>) returns (placed: bool, table: Table)
      requires Shape(State())
      modifies this
      ensures var p := PlaceAll(old(State()), Table([], 0, 0), Root, toks, 0);
        && (!placed <==> p.Stuck?)
        && (placed ==> p.cache == State() && p.table == table)
      ensures tables == old(tables) && clock == old(clock)
    {
      hide PlaceChunk;
      ghost var start0 := State();
      table := Table([], 0, 0);
      var prefix := Root;
      var start := 0;
      while start < |toks|
        invariant 0 <= start <= |toks|
        invariant Shape(State()) && InPool(State(), table.blocks)
        invariant tables == old(tables) && clock == old(clock)
        invariant PlaceAll(start0, Table([], 0, 0), Root, toks, 0) == PlaceAll(State(), table, prefix, toks, start)
      {
        var next := Min(start + blockSize, |toks|);
        BlockPoolAllocate.PlaceAllUnfolds(State(), table, prefix, toks, start);
        ghost var p := PlaceChunk(State(), table, prefix, toks[..start], toks[start..next]);
        placed, table, prefix := PlaceNext(table, prefix, toks[..start], toks[start..next]);
        if !placed {
          return;
        }
        assert p == Advance(State(), table, prefix);
        start := next;
      }
      placed := true;
    }

    /** One turn of the allocation loop: a hit on the prefix index, or a block of our own. */
    method PlaceNext(t: Table, prefix: Hash, ghost before: seq<Token>, chunk: seq<Token>)
      returns (placed: bool, t': Table, prefix': Hash)
      requires Shape(State()) && InPool(State(), t.blocks)
      modifies this
      ensures !placed <==> PlaceChunk(old(State()), t, prefix, before, chunk).Stuck?
      ensures placed ==> PlaceChunk(old(State()), t, prefix, before, chunk) == Advance(State(), t', prefix')
      ensures tables == old(tables) && clock == old(clock)
    {
      t', prefix' := t, Root;
      var shareable := |chunk| == blockSize && caching;
      var h := Chain(prefix, chunk);
      if shareable && h in index {
        var b := index[h];
        blocks := blocks[b := blocks[b].(refCount := blocks[b].refCount + 1, lastUsed := clock)];
        return true, t.(blocks := t.blocks + [b], numCached := t.numCached + |chunk|), h;
      }
      var taken := TakeFreeBlock();
      if taken.None? {
        return false, t, Root;
      }
      var b := taken.value;
      blocks := blocks[b := Block(1, |chunk|, if shareable then Some(h) else None, clock)];
      store := store[b := Slots(before, chunk)];
      t' := t.(blocks := t.blocks + [b]);
      if shareable {
        index := index[h := b];
        prefix' := h;
      }
      placed := true;
    }

    /** Grows a sequence by one token, in a new block, in place, or in its own copy of a shared block. */
    method AppendToken(s: SeqId, ghost tok: Token) returns (r: Status)
      requires Valid()
      modifies this
      ensures Valid()
      ensures Answers(r, Append(old(State()), s, tok))
      ensures if r == Ok then Done(State()) == Append(old(State()), s, tok) else State() == old(State())
      ensures r == ErrSequenceNotFound <==> s !in old(tables)
      ensures r == ErrOutOfCacheBlocks <==>
        s in old(tables) && NeedsBlock(old(State()), s) && Available(old(State())) == 0
      ensures Contents() == if r == Ok then old(Contents())[s := old(Contents())[s] + [tok]] else old(Contents())
    {
      hide FreeOk, RefOk, IndexOk, HashOk, TablesOk, View, Grow, CopyOnWrite, WriteLast;
      BlockPoolAppend.AppendKeeps(State(), s, tok);
      if s !in tables {
        return ErrSequenceNotFound;
      }
      BlockPoolAppend.FullAtBoundary(State(), s);
      var offset := tables[s].numTokens % blockSize;
      if offset == 0 {
        var grown := AddBlock(s);
        if !grown {
          return ErrOutOfCacheBlocks;
        }
      } else if blocks[tables[s].blocks[|tables[s].blocks| - 1]].refCount > 1 {
        var copied := CopyLast(s);
        if !copied {
          return ErrOutOfCacheBlocks;
        }
      }
      WriteToken(s, tok);
      r := Ok;
    }

    /** Puts a fresh block of its own at the end of a sequence's table. */
    method AddBlock(s: SeqId) returns (ok: bool)
      requires Shape(State()) && s in tables
      modifies this
      ensures !ok ==> Grow(old(State()), s).None? && State() == old(State())
      ensures ok ==> Grow(old(State()), s) == Some(State())
    {
      var taken := TakeFreeBlock();
      if taken.None? {
        return false;
      }
      var b := taken.value;
      store := store[b := Slots(Read(store, tables[s].blocks), [])];
      blocks := blocks[b := Block(1, 0, None, blocks[b].lastUsed)];
      tables := tables[s := tables[s].(blocks := tables[s].blocks + [b])];
      ok := true;
    }

    /** Fills the next slot of a sequence's last block. */
    method WriteToken(s: SeqId, ghost tok: Token)
      requires Shape(State()) && s in tables && tables[s].blocks != []
      modifies this
      ensures State() == WriteLast(old(State()), s, tok)
    {
      var t := tables[s];
      var last := t.blocks[|t.blocks| - 1];
      store := store[last := Slots(store[last].context, store[last].tokens + [tok])];
      blocks := blocks[last := blocks[last].(numTokens := blocks[last].numTokens + 1, lastUsed := clock)];
      tables := tables[s := t.(numTokens := t.numTokens + 1)];
      clock := clock + 1;
    }

    method CopyLast(s: SeqId) returns (ok: bool)
      requires Shape(State()) && s in tables && tables[s].blocks != []
      modifies this
      ensures !ok ==> CopyOnWrite(old(State()), s).None? && State() == old(State())
      ensures ok ==> CopyOnWrite(old(State()), s) == Some(State())
    {
      var taken := TakeFreeBlock();
      if taken.None? {
        return false;
      }
      var b := taken.value;
      var t := tables[s];
      var o := t.blocks[|t.blocks| - 1];
      var shared := blocks[o];
      blocks := blocks[b := Block(1, shared.numTokens, None, blocks[b].lastUsed)];
      blocks := blocks[o := shared.(refCount := shared.refCount - 1)];
      store := store[b := store[o]];
      tables := tables[s := t.(blocks := t.blocks[|t.blocks| - 1 := b])];
      ok := true;
    }

    /** Lets a child share its parent's blocks. */
    method ForkSequence(parent: SeqId, child: SeqId) returns (r: Status)
      requires Valid()
      modifies this
      ensures Answers(r, Fork(old(State()), parent, child))
      ensures r == Ok <==> parent in old(tables)
      ensures if r == Ok then Done(State()) == Fork(old(State()), parent, child) else State() == old(State())
      ensures Valid() <==> (r == Ok ==> BlockPoolFork.FreshChild(old(State()), child))
      ensures Contents() == if r == Ok then old(Contents())[child := old(Contents())[parent]] else old(Contents())
    {
      hide FreeOk, RefOk, IndexOk, HashOk, TablesOk, View, BlockPoolFork.FreshChild;
      BlockPoolFork.ForkKeeps(State(), parent, child);
      if parent !in tables {
        return ErrSequenceNotFound;
      }
      var p := tables[parent];
      ghost var blocks0 := blocks;
      for i := 0 to |p.blocks|
        invariant State() == old(State()).(blocks := blocks) && |blocks| == |blocks0|
        invariant Retain(blocks0, p.blocks) == Retain(blocks, p.blocks[i..])
      {
        var b := p.blocks[i];
        assert p.blocks[i..][1..] == p.blocks[i + 1..];
        blocks := blocks[b := blocks[b].(refCount := blocks[b].refCount + 1)];
      }
      tables := tables[child := p];
      r := Ok;
    }

    /** Releases a sequence and says how many blocks went back to the pool. */
    method FreeSequence(s: SeqId) returns (released: nat)
      requires Valid()
      modifies this
      ensures Valid() && State() == Free(old(State()), s)
      ensures Contents() == old(Contents()) - {s}
      ensures released == if s in old(tables) then BlockPoolFork.Returned(old(blocks), old(tables)[s].blocks) else 0
    {
      hide FreeOk, RefOk, IndexOk, HashOk, TablesOk, View, Release;
      BlockPoolFork.FreeKeeps(State(), s);
      released := 0;
      if s !in tables {
        return;
      }
      BlockPoolFork.TableReleasable(State(), s);
      var ids := tables[s].blocks;
      tables := tables - {s};
      released := ReleaseBlocks(ids);
    }

    method ReleaseBlocks(ids: seq<nat>) returns (released: nat)
      requires BlockPoolFork.CanRelease(State(), ids)
      modifies this
      ensures State() == Release(old(State()), ids)
      ensures released == |free| - |old(free)|
    {
      hide Shape, NoDup;
      released := 0;
      ghost var start := State();
      for i := 0 to |ids|
        invariant BlockPoolFork.CanRelease(State(), ids[i..])
        invariant Release(start, ids) == Release(State(), ids[i..])
        invariant released == |free| - |old(free)|
      {
        ghost var c1 := BlockPoolFork.ReleaseStep(State(), ids[i..]);
        assert ids[i..][1..] == ids[i + 1..];
        var freed := ReleaseOne(ids[i]);
        if freed {
          released := released + 1;
        }
        assert State() == c1;
      }
    }

    /** Drops one reference to a block; the count cannot underflow. */
    method ReleaseOne(b: nat) returns (freed: bool)
      requires b < |blocks| && blocks[b].refCount > 0
      modifies this
      ensures freed <==> old(blocks)[b].refCount == 1 && old(blocks)[b].contentHash.None?
      ensures State() == old(State()).(blocks := old(blocks)[b := BlockPoolFork.Dropped(old(blocks)[b], true)],
                                       free := if freed then old(free) + [b] else old(free))
    {
      blocks := blocks[b := blocks[b].(refCount := blocks[b].refCount - 1)];
      freed := blocks[b].refCount == 0 && blocks[b].contentHash.None?;
      if freed {
        blocks := blocks[b := blocks[b].(numTokens := 0)];
        free := free + [b];
      }
    }

    /** A sequence's physical slots, in token order. */
    method PhysicalSlots(s: SeqId) returns (slots: Option<seq<nat>>)
      requires Valid()
      ensures slots.None? <==> s !in tables
      ensures slots.Some? ==>
        && NoDup(slots.value) && |slots.value| == |Contents()[s]|
        && forall k :: 0 <= k < |slots.value| ==> BlockPoolRuns.Holds(State(), slots.value[k], Contents()[s][k])
    {
      hide FreeOk, RefOk, IndexOk, HashOk, TablesOk, View, NoDup, BlockPoolRuns.Holds;
      if s !in tables {
        return None;
      }
      var ids := tables[s].blocks;
      var out: seq<nat> := [];
      for i := 0 to |ids|
        invariant out == BlockPoolRuns.SlotsUpTo(State(), ids, i)
      {
        var count := if i == |ids| - 1 then blocks[ids[i]].numTokens else blockSize;
        out := out + BlockPoolRuns.SlotRange(ids[i] * blockSize, count);
      }
      BlockPoolRuns.SlotsAreTheSequence(State(), s);
      slots := Some(out);
    }
  }
}
