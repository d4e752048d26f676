/** What holds in every reachable state of the paged cache. */
module BlockPoolRuns {
  import opened Prelude
  import opened BlockPool
  import opened BlockPoolInvariant
  import opened BlockPoolSteps
  import opened BlockPoolAllocate
  import opened BlockPoolAppend
  import opened BlockPoolFork

  datatype Op =
    | AllocateOp(s: SeqId, toks: seq<Token>, watermark: real)
    | AppendOp(s: SeqId, tok: Token)
    | ForkOp(parent: SeqId, child: SeqId)
    | FreeOp(s: SeqId)

  /** What the cache asks of its caller: fork to an unused id, and no allocation that passes its
      own test and then runs dry. Under a non-negative reserve none does (AdmissionExactly). */
  predicate Legal(c: Cache, op: Op)
    requires Shape(c)
  {
    match op
    case ForkOp(_, child) => child !in c.tables
    case AllocateOp(s, toks, w) => Completes(c, s, toks, w)
    case _ => true
  }

  /** An allocation that passes its own test completes. */
  predicate Completes(c: Cache, s: SeqId, toks: seq<Token>, watermark: real)
    requires Shape(c)
  {
    s !in c.tables && CanAllocate(c, |toks|, watermark) ==> Allocate(c, s, toks, watermark).Done?
  }

  function Perform(c: Cache, op: Op): Outcome
    requires Shape(c)
  {
    match op
    case AllocateOp(s, toks, w) => Allocate(c, s, toks, w)
    case AppendOp(s, tok) => Append(c, s, tok)
    case ForkOp(p, ch) => Fork(c, p, ch)
    case FreeOp(s) => Done(Free(c, s))
  }

  /** The same operation on a plain map from sequence id to tokens, when it succeeds. */
  function Intended(v: map<SeqId, seq<Token>>, op: Op): map<SeqId, seq<Token>> {
    match op
    case AllocateOp(s, toks, _) => v[s := toks]
    case AppendOp(s, tok) => if s in v then v[s := v[s] + [tok]] else v
    case ForkOp(p, ch) => if p in v then v[ch := v[p]] else v
    case FreeOp(s) => v - {s}
  }

  /** A run: each operation either succeeds or raises and leaves the cache as it was. */
  ghost predicate Run(c: Cache, ops: seq<Op>, done: seq<bool>, c': Cache)
    requires Shape(c)
    decreases |ops|
  {
    && |ops| == |done|
    && if ops == [] then c' == c
       else
         && Legal(c, ops[0])
         && done[0] == Perform(c, ops[0]).Done?
         && var next := if done[0] then Perform(c, ops[0]).cache else c;
         Shape(next) && Run(next, ops[1..], done[1..], c')
  }

  function IntendedRun(v: map<SeqId, seq<Token>>, ops: seq<Op>, done: seq<bool>): map<SeqId, seq<Token>>
    requires |ops| == |done|
    decreases |ops|
  {
    if ops == [] then v
    else IntendedRun(if done[0] then Intended(v, ops[0]) else v, ops[1..], done[1..])
  }

  lemma PerformKeeps(c: Cache, op: Op)
    requires Inv(c) && Legal(c, op)
    ensures Perform(c, op).Done? ==>
      var c' := Perform(c, op).cache;
      Inv(c') && Limits(c, c') && View(c') == Intended(View(c), op)
  {
    match op
    case AllocateOp(s, toks, w) => AllocateKeeps(c, s, toks, w);
    case AppendOp(s, tok) => AppendKeeps(c, s, tok);
    case ForkOp(p, ch) => ForkKeeps(c, p, ch);
    case FreeOp(s) => FreeKeeps(c, s);
  }

  lemma FreshIsEmpty(numBlocks: nat, blockSize: nat, caching: bool)
    requires blockSize > 0
    ensures Inv(Fresh(numBlocks, blockSize, caching)) && View(Fresh(numBlocks, blockSize, caching)) == map[]
  {
    var c := Fresh(numBlocks, blockSize, caching);
    forall b: nat | b < numBlocks ensures b in c.free {
      assert c.free[numBlocks - 1 - b] == b;
    }
    forall b: nat | b < numBlocks ensures Users(c.tables, b) == {} {
    }
  }

  /** Refinement over whole runs: however allocations, decodes, forks, frees, evictions and
      copies interleave, the cache is the plain map from sequence id to tokens. */
  lemma {:induction false} RunRefines(c: Cache, ops: seq<Op>, done: seq<bool>, c': Cache)
    requires Inv(c) && Run(c, ops, done, c')
    ensures Inv(c') && Limits(c, c') && View(c') == IntendedRun(View(c), ops, done)
    decreases |ops|
  {
    hide FreeOk, RefOk, IndexOk, HashOk, TablesOk, View;
    if ops != [] {
      PerformKeeps(c, ops[0]);
      RunRefines(if done[0] then Perform(c, ops[0]).cache else c, ops[1..], done[1..], c');
    }
  }

  // ----- accounting -----

  /** With no live sequence every block is available again. */
  lemma AllFreedAllAvailable(c: Cache)
    requires Inv(c) && c.tables == map[]
    ensures Available(c) == |c.blocks|
  {
    AvailableIsUnpinned(c, {});
    forall b: nat | b < |c.blocks| ensures c.blocks[b].refCount == 0 {
      assert Users(c.tables, b) == {};
    }
    IotaSize(|c.blocks|);
    assert Unpinned(c) == Iota(|c.blocks|);
  }

  function Iota(n: nat): set<nat> {
    if n == 0 then {} else Iota(n - 1) + {n - 1}
  }

  lemma {:induction false} IotaSize(n: nat)
    ensures |Iota(n)| == n && forall b: nat :: b in Iota(n) <==> b < n
  {
    if n > 0 {
      IotaSize(n - 1);
    }
  }

  /** Every reference count is the number of table slots naming the block, counted table by
      table; tables have ceil(numTokens / blockSize) blocks, none twice. */
  lemma TablesAccount(c: Cache, s: SeqId)
    requires Inv(c) && s in c.tables
    ensures var t := c.tables[s];
      && NoDup(t.blocks)
      && t.numTokens == |View(c)[s]|
      && |t.blocks| == CeilDiv(t.numTokens, c.blockSize)
      && forall i :: 0 <= i < |t.blocks| ==> c.blocks[t.blocks[i]].refCount == |Users(c.tables, t.blocks[i])| > 0
  {
    var t := c.tables[s];
    TableNoDup(c, t.blocks);
    TableSize(c, t.blocks);
    forall i | 0 <= i < |t.blocks| ensures |Users(c.tables, t.blocks[i])| > 0 {
      UserCounts(c.tables, s, t.blocks[i]);
    }
  }

  // ----- how far admission can be trusted -----

  /** A pool of n blocks of this size completes every allocation that its own test accepts. */
  ghost predicate AdmissionIsSafe(n: nat, blockSize: nat, caching: bool, watermark: real) {
    forall c: Cache, s: SeqId, toks: seq<Token> | Inv(c) && Sized(c, n, blockSize, caching) ::
      Completes(c, s, toks, watermark)
  }

  predicate Sized(c: Cache, n: nat, blockSize: nat, caching: bool) {
    |c.blocks| == n && c.blockSize == blockSize && c.caching == caching
  }

  /** A live sequence fits in the pool. */
  lemma TableFits(c: Cache, s: SeqId)
    requires Inv(c) && s in c.tables
    ensures CeilDiv(|View(c)[s]|, c.blockSize) <= |c.blocks|
  {
    var ids := c.tables[s].blocks;
    TableNoDup(c, ids);
    TableSize(c, ids);
    IdsFit(ids, |c.blocks|);
  }

  lemma IdsFit(ids: seq<nat>, n: nat)
    requires NoDup(ids) && forall i :: 0 <= i < |ids| ==> ids[i] < n
    ensures |ids| <= n
  {
    IdsCount(ids);
    IotaSize(n);
    SubsetSize(Members(ids), Iota(n));
  }

  ghost function Members(ids: seq<nat>): set<nat> {
    set b | b in ids
  }

  lemma {:induction false} IdsCount(ids: seq<nat>)
    requires NoDup(ids)
    ensures |Members(ids)| == |ids|
  {
    if ids != [] {
      var before, last := ids[..|ids| - 1], ids[|ids| - 1];
      IdsCount(before);
      assert ids == before + [last];
      assert Members(ids) == Members(before) + {last};
      assert last !in before;
    }
  }

  function Blanks(n: nat): (r: seq<Token>)
    ensures |r| == n
  {
    seq(n, i => 0)
  }

  /** Over a negative reserve an empty pool accepts a prompt one token too long for it. */
  lemma Overpromised(n: nat, blockSize: nat, caching: bool, watermark: real)
    requires blockSize > 0 && Reserve(n, watermark) < 0
    ensures !AdmissionIsSafe(n, blockSize, caching, watermark)
  {
    hide Inv, PlaceAll, View;
    var c, toks := Fresh(n, blockSize, caching), Blanks(n * blockSize + 1);
    FreshIsEmpty(n, blockSize, caching);
    AllFreedAllAvailable(c);
    OneBlockMore(n, blockSize);
    AllocateKeeps(c, "", toks, watermark);
    if Completes(c, "", toks, watermark) {
      TableFits(Allocate(c, "", toks, watermark).cache, "");
    }
  }

  lemma OneBlockMore(n: nat, blockSize: nat)
    requires blockSize > 0
    ensures CeilDiv(n * blockSize + 1, blockSize) == n + 1
  {
    DivModOf(n * blockSize + blockSize, n + 1, blockSize, 0);
  }

  /** `can_allocate` guarantees that the allocation completes, in every state of the pool and for
      every prompt, exactly when the watermark does not reserve a negative number of blocks. */
  lemma AdmissionExactly(n: nat, blockSize: nat, caching: bool, watermark: real)
    requires blockSize > 0
    ensures AdmissionIsSafe(n, blockSize, caching, watermark) <==> Reserve(n, watermark) >= 0
  {
    hide CanAllocate, Allocate, Reserve;
    if Reserve(n, watermark) >= 0 {
      forall c: Cache, s: SeqId, toks: seq<Token> | Inv(c) && Sized(c, n, blockSize, caching)
        ensures Completes(c, s, toks, watermark)
      {
        AllocateKeeps(c, s, toks, watermark);
      }
    } else {
      Overpromised(n, blockSize, caching, watermark);
    }
  }

  /** The sequence a of one token, forked onto itself: its block then has two references and one
      user, and is never free again. */
  lemma ForkOntoLive()
    ensures var c := Fresh(1, 1, false);
      && Allocate(c, "a", [7], 0.0).Done?
      && Inv(Allocate(c, "a", [7], 0.0).cache)
      && Fork(Allocate(c, "a", [7], 0.0).cache, "a", "a").Done?
      && !Inv(Fork(Allocate(c, "a", [7], 0.0).cache, "a", "a").cache)
  {
    hide PlaceAll, Inv, FreeOk, RefOk, IndexOk, HashOk, TablesOk;
    var c := Fresh(1, 1, false);
    FreshIsEmpty(1, 1, false);
    AllFreedAllAvailable(c);
    AllocateKeeps(c, "a", [7], 0.0);
    var c1 := Allocate(c, "a", [7], 0.0).cache;
    assert "a" in View(c1);
    TablesAccount(c1, "a");
    ForkKeeps(c1, "a", "a");
  }

  /** Sequences that share a block share it at the same place and agree on everything up to its end. */
  lemma SharedPrefix(c: Cache, s: SeqId, s': SeqId, i: nat, j: nat)
    requires Inv(c) && s in c.tables && s' in c.tables
    requires i < |c.tables[s].blocks| && j < |c.tables[s'].blocks| && c.tables[s].blocks[i] == c.tables[s'].blocks[j]
    ensures i == j
    ensures Read(c.store, c.tables[s].blocks[..i + 1]) == Read(c.store, c.tables[s'].blocks[..j + 1])
  {
    var ids, ids' := c.tables[s].blocks, c.tables[s'].blocks;
    assert EntryOk(c, ids, i) && EntryOk(c, ids', j);
    ReadLength(c, ids, i);
    ReadLength(c, ids', j);
    SameMultiple(i, j, c.blockSize);
    assert ids[..i + 1][..i] == ids[..i] && ids'[..j + 1][..j] == ids'[..j];
  }

  lemma SameMultiple(i: nat, j: nat, b: nat)
    requires b > 0 && i * b == j * b
    ensures i == j
  {
    if i < j {
      MulAtLeast(j - i, b);
      MulSub(j, i, b);
    } else if j < i {
      MulAtLeast(i - j, b);
      MulSub(i, j, b);
    }
  }

  // ----- physical slots -----

  function SlotRange(base: nat, count: nat): (r: seq<nat>)
    ensures |r| == count && forall k :: 0 <= k < count ==> r[k] == base + k
  {
    seq(count, k requires 0 <= k => base + k)
  }

  /** The slots of the first n blocks of a table: all of a block's slots, except that the
      last block counts only those it has filled. */
  function SlotsUpTo(c: Cache, ids: seq<nat>, n: nat): seq<nat>
    requires Shape(c) && InPool(c, ids) && n <= |ids|
  {
    if n == 0 then []
    else
      var b := ids[n - 1];
      SlotsUpTo(c, ids, n - 1) +
      SlotRange(b * c.blockSize, if n == |ids| then c.blocks[b].numTokens else c.blockSize)
  }

  /** The token in a physical slot. */
  ghost predicate Holds(c: Cache, slot: nat, tok: Token)
    requires c.blockSize > 0
  {
    var b, k := slot / c.blockSize, slot % c.blockSize;
    b < |c.store| && k < |c.store[b].tokens| && c.store[b].tokens[k] == tok
  }

  lemma SlotOfBlock(b: nat, k: nat, blockSize: nat)
    requires k < blockSize
    ensures (b * blockSize + k) / blockSize == b && (b * blockSize + k) % blockSize == k
  {
    DivModOf(b * blockSize + k, b, blockSize, k);
  }

  /** The slots of one block, as far as it is filled, hold its tokens. */
  lemma RangeHolds(c: Cache, b: nat, count: nat)
    requires c.blockSize > 0 && b < |c.store| && count <= |c.store[b].tokens| && count <= c.blockSize
    ensures var range := SlotRange(b * c.blockSize, count);
      forall k :: 0 <= k < count ==> Holds(c, range[k], c.store[b].tokens[k]) && range[k] / c.blockSize == b
    ensures NoDup(SlotRange(b * c.blockSize, count))
  {
    var range := SlotRange(b * c.blockSize, count);
    forall k | 0 <= k < count
      ensures Holds(c, range[k], c.store[b].tokens[k]) && range[k] / c.blockSize == b
    {
      SlotOfBlock(b, k, c.blockSize);
    }
  }

  /** Slot k of a list of blocks holds token k of what the list reads. */
  ghost predicate SlotsFit(c: Cache, slots: seq<nat>, ids: seq<nat>) {
    && c.blockSize > 0
    && |slots| == |Read(c.store, ids)|
    && (forall k :: 0 <= k < |slots| ==>
          Holds(c, slots[k], Read(c.store, ids)[k]) && slots[k] / c.blockSize in ids)
  }

  lemma SlotsFitSnoc(c: Cache, slots: seq<nat>, ids: seq<nat>, b: nat)
    requires SlotsFit(c, slots, ids)
    requires b < |c.store| && |c.store[b].tokens| <= c.blockSize
    ensures SlotsFit(c, slots + SlotRange(b * c.blockSize, |c.store[b].tokens|), ids + [b])
  {
    RangeHolds(c, b, |c.store[b].tokens|);
    ReadSnoc(c.store, ids, b);
  }

  lemma {:induction false} SlotsHold(c: Cache, ids: seq<nat>, n: nat)
    requires Shape(c) && IdsOk(c, ids) && InPool(c, ids) && n <= |ids|
    ensures SlotsFit(c, SlotsUpTo(c, ids, n), ids[..n])
  {
    if n > 0 {
      SlotsHold(c, ids, n - 1);
      assert EntryOk(c, ids, n - 1);
      SlotsFitSnoc(c, SlotsUpTo(c, ids, n - 1), ids[..n - 1], ids[n - 1]);
      assert ids[..n] == ids[..n - 1] + [ids[n - 1]];
    }
  }

  lemma NoDupConcat(a: seq<nat>, b: seq<nat>)
    requires NoDup(a) && NoDup(b) && forall i, j :: 0 <= i < |a| && 0 <= j < |b| ==> a[i] != b[j]
    ensures NoDup(a + b)
  {
  }

  lemma {:induction false} SlotsDistinct(c: Cache, ids: seq<nat>, n: nat)
    requires Shape(c) && IdsOk(c, ids) && InPool(c, ids) && n <= |ids|
    ensures NoDup(SlotsUpTo(c, ids, n))
  {
    if n > 0 {
      SlotsDistinct(c, ids, n - 1);
      var b := ids[n - 1];
      var before, range := SlotsUpTo(c, ids, n - 1), SlotRange(b * c.blockSize, |c.store[b].tokens|);
      assert EntryOk(c, ids, n - 1);
      RangeHolds(c, b, |c.store[b].tokens|);
      assert b !in ids[..n - 1] by { TableNoDup(c, ids); }
      assert SlotsFit(c, before, ids[..n - 1]) by { SlotsHold(c, ids, n - 1); }
      NoDupConcat(before, range);
    }
  }

  /** A sequence of n tokens has n distinct physical slots, and reading them in order gives its tokens. */
  lemma SlotsAreTheSequence(c: Cache, s: SeqId)
    requires Inv(c) && s in c.tables
    ensures var ids := c.tables[s].blocks;
      var slots := SlotsUpTo(c, ids, |ids|);
      && NoDup(slots) && |slots| == c.tables[s].numTokens == |View(c)[s]|
      && forall k :: 0 <= k < |slots| ==> Holds(c, slots[k], View(c)[s][k])
  {
    var ids := c.tables[s].blocks;
    SlotsDistinct(c, ids, |ids|);
    SlotsHold(c, ids, |ids|);
    assert ids[..|ids|] == ids;
  }
}
