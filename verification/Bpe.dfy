/** The tokenizer object: its lookup tables, its memo of merged words, and its loops. */
module Bpe {
  import opened Prelude
  import opened Utf8
  import opened Ranking
  import opened Pretokenizer
  import opened BpeModel
  import opened BpeProofs
  import BpeOrder
  import Incremental

  function Range(a: int, b: int): (r: seq<int>)
    requires a <= b
    ensures forall x :: x in r <==> a <= x < b
    decreases b - a
  {
    if a == b then [] else [a] + Range(a + 1, b)
  }

  function PrintableBytes(): (r: seq<int>)
    ensures forall x :: x in r <==> Printable(x)
  {
    Range(0x21, 0x7E + 1) + Range(0xA1, 0xAC + 1) + Range(0xAE, 0xFF + 1)
  }

  /** Each of the listed byte values with the code point it takes. */
  ghost predicate Ordered(printable: seq<int>, mapped: seq<int>) {
    && |mapped| == |printable|
    && forall i :: 0 <= i < |printable| ==> 0 <= printable[i] < 256 && mapped[i] == Symbol(printable[i]) as int
  }

  /** The printable bytes and then the others, in order, and beside each the code point it takes. */
  method ByteOrder() returns (printable: seq<int>, mapped: seq<int>)
    ensures Ordered(printable, mapped)
    ensures forall x :: 0 <= x < 256 ==> x in printable
  {
    hide Ordered, UnprintableBelow, Printable, Symbol, PrintableBytes;
    printable := PrintableBytes();
    mapped := printable;
    var shift := 0;
    PrintableOrdered();
    for b := 0 to 256
      invariant Ordered(printable, mapped)
      invariant forall x :: x in printable <==> Printable(x) || 0 <= x < b
      invariant shift == UnprintableBelow(b)
    {
      OrderedNext(printable, mapped, b);
      if b !in printable {
        printable := printable + [b];
        mapped := mapped + [256 + shift];
        shift := shift + 1;
      }
    }
  }

  lemma PrintableOrdered()
    ensures Ordered(PrintableBytes(), PrintableBytes()) && UnprintableBelow(0) == 0
  {
    var r := PrintableBytes();
    assert forall i :: 0 <= i < |r| ==> r[i] in r;
  }

  lemma OrderedNext(printable: seq<int>, mapped: seq<int>, b: byte)
    requires Ordered(printable, mapped)
    ensures UnprintableBelow(b + 1) == UnprintableBelow(b) + if Printable(b) then 0 else 1
    ensures !Printable(b) ==> Ordered(printable + [b], mapped + [256 + UnprintableBelow(b)])
  {
  }

  method ByteEncoder() returns (m: map<int, char>)
    ensures Encoder(m)
  {
    var printable, mapped := ByteOrder();
    m := map[];
    for i := 0 to |printable|
      invariant forall x :: x in m <==> x in printable[..i]
      invariant forall x: int :: x in m ==> 0 <= x < 256 && m[x] == Symbol(x)
    {
      m := m[printable[i] := mapped[i] as char];
      assert printable[..i + 1] == printable[..i] + [printable[i]];
    }
    assert printable[..|printable|] == printable;
  }

  function Pairs(word: seq<string>): (r: set<Pair>)
    ensures r == {} <==> |word| < 2
  {
    if |word| < 2 then {} else {PairOf(word, 0)} + Pairs(word[1..])
  }

  lemma {:induction false} PairIn(word: seq<string>, i: nat)
    requires i < |word| - 1
    ensures PairOf(word, i) in Pairs(word)
  {
    if i > 0 {
      PairIn(word[1..], i - 1);
    }
  }

  lemma {:induction false} PairAt(word: seq<string>, p: Pair) returns (i: nat)
    requires p in Pairs(word)
    ensures i < |word| - 1 && PairOf(word, i) == p
  {
    if p == PairOf(word, 0) {
      i := 0;
    } else {
      var k := PairAt(word[1..], p);
      i := k + 1;
    }
  }

  function Inverse(m: map<string, int>): map<int, string>
    requires Injective(m)
  {
    map s | s in m :: m[s] := s
  }

  ghost predicate Inverts(inverse: map<int, string>, m: map<string, int>)
    requires Injective(m)
  {
    forall id :: Named(m, id) == if id in inverse then Some(inverse[id]) else None
  }

  lemma InverseInverts(m: map<string, int>)
    requires Injective(m)
    ensures Inverts(Inverse(m), m)
  {
  }

  ghost predicate Encoder(enc: map<int, char>) {
    && (forall b :: b in enc <==> 0 <= b < 256)
    && (forall b: byte :: b in enc ==> enc[b] == Symbol(b))
  }

  ghost predicate Decoder(dec: map<char, byte>) {
    forall c :: ByteOf(c) == if c in dec then Some(dec[c]) else None
  }

  method ByteDecoder(enc: map<int, char>) returns (dec: map<char, byte>)
    requires Encoder(enc)
    ensures Decoder(dec)
  {
    forall a, b | a in enc && b in enc && enc[a] == enc[b] ensures a == b {
      SymbolInjective(a, b);
    }
    dec := map b | b in enc :: enc[b] := b;
    forall c ensures ByteOf(c) == if c in dec then Some(dec[c]) else None {
      if c in dec {
        ByteOfSymbol(dec[c], 0);
      } else {
        assert forall b: byte :: b in enc;
      }
    }
  }

  ghost predicate RanksOf(ranks: map<Pair, int>, merges: seq<Pair>) {
    forall p :: (p in ranks <==> Rank(merges, p) >= 0) && (p in ranks ==> ranks[p] == Rank(merges, p))
  }

  method RankTable(merges: seq<Pair>) returns (ranks: map<Pair, int>)
    ensures RanksOf(ranks, merges)
  {
    ranks := map[];
    for i := 0 to |merges|
      invariant RanksOf(ranks, merges[..i])
    {
      assert merges[..i + 1][..i] == merges[..i];
      ranks := ranks[merges[i] := i];
    }
    assert merges[..|merges|] == merges;
  }

  function Lengths(names: seq<string>): (r: seq<real>)
    ensures |r| == |names| && forall i :: 0 <= i < |r| ==> r[i] == |names[i]| as real
  {
    seq(|names|, i requires 0 <= i < |names| => |names[i]| as real)
  }

  /** The names, longest first. */
  function ByLength(names: seq<string>): (r: seq<string>)
    ensures |r| == |names|
  {
    var order := Ranked(Lengths(names));
    seq(|names|, i requires 0 <= i < |names| => names[order[i]])
  }

  lemma ByLengthIs(names: seq<string>, specials: map<string, int>)
    requires forall s :: s in specials <==> s in names
    ensures LongestFirst(specials, ByLength(names))
  {
    var keys, r := Lengths(names), ByLength(names);
    var order := Ranked(keys);
    RankedSorts(keys);
    forall s ensures s in names <==> s in r {
      if s in names {
        var i: nat :| i < |names| && names[i] == s;
        assert i in order;
        var k :| 0 <= k < |order| && order[k] == i;
        assert r[k] == s;
      }
    }
    forall i, j | 0 <= i < j < |r| ensures |r[i]| >= |r[j]| {
      assert Before(keys, order[i], order[j]);
    }
  }

  /** The memo only holds what the merge loop would compute. */
  ghost predicate Remembered(cache: map<string, seq<string>>, merges: seq<Pair>) {
    forall token :: token in cache ==> cache[token] == BpeModel.Bpe(token, merges)
  }

  /** The pair's rank, or a value above every rank when it has none. */
  function RankKey(merges: seq<Pair>, p: Pair): int {
    if Rank(merges, p) >= 0 then Rank(merges, p) else 0x4000_0000
  }

  /** The least-keyed adjacent pair is the best-ranked one, or no adjacent pair is ranked. */
  lemma LeastIsBest(word: seq<string>, merges: seq<Pair>, p: Pair)
    requires |merges| <= 0x4000_0000 && p in Pairs(word)
    requires forall q :: q in Pairs(word) ==> RankKey(merges, p) <= RankKey(merges, q)
    ensures Best(word, merges, |word| - 1) == if Rank(merges, p) >= 0 then Some(p) else None
  {
    hide Rank, Best, Pairs, PairOf;
    var n := |word| - 1;
    var best := Best(word, merges, n);
    var k := PairAt(word, p);
    BestIsLeast(word, merges, n, k);
    if best.Some? {
      var i :| 0 <= i < n && PairOf(word, i) == best.value;
      PairIn(word, i);
      assert RankKey(merges, p) <= RankKey(merges, best.value);
    }
  }

  lemma MergeStops(word: seq<string>, merges: seq<Pair>)
    requires |word| < 2 || Best(word, merges, |word| - 1).None?
    ensures Merge(word, merges) == word
  {
  }

  function After(out: string, rest: Result<string>): Result<string> {
    if rest.Err? then rest else Ok(out + rest.value)
  }

  lemma AfterNothing(rest: Result<string>)
    ensures After("", rest) == rest
  {
    if rest.Ok? {
      assert "" + rest.value == rest.value;
    }
  }

  lemma PiecesIdsStep(vocab: map<string, int>, pieces: seq<string>, k: nat)
    requires k < |pieces|
    ensures PiecesIds(vocab, pieces[k..]) == PieceIds(vocab, pieces[k]) + PiecesIds(vocab, pieces[k + 1..])
  {
    assert pieces[k..][1..] == pieces[k + 1..];
  }

  lemma PiecesIdsDone(vocab: map<string, int>)
    ensures PiecesIds(vocab, []) == []
  {
  }

  /** One step of joining a pair, after the symbols already put out. */
  lemma JoinStep(word: seq<string>, p: Pair, i: nat, out: seq<string>)
    requires i < |word|
    ensures out + Join(word, p, i) ==
      if i < |word| - 1 && PairOf(word, i) == p then out + [p.0 + p.1] + Join(word, p, i + 2)
      else out + [word[i]] + Join(word, p, i + 1)
  {
    if i < |word| - 1 && PairOf(word, i) == p {
      assert out + ([p.0 + p.1] + Join(word, p, i + 2)) == out + [p.0 + p.1] + Join(word, p, i + 2);
    } else {
      assert out + ([word[i]] + Join(word, p, i + 1)) == out + [word[i]] + Join(word, p, i + 1);
    }
  }

  lemma JoinDone(word: seq<string>, p: Pair, out: seq<string>)
    ensures out + Join(word, p, |word|) == out
  {
  }

  lemma ChunkIdsStep(t: Tables, chunks: seq<string>, k: nat)
    requires k < |chunks|
    ensures ChunkIds(t, chunks[k..])
         == PiecesIds(t.vocab, BpeModel.Bpe(Symbols(Utf8.Encode(chunks[k])), t.merges)) + ChunkIds(t, chunks[k + 1..])
  {
    assert chunks[k..][1..] == chunks[k + 1..];
  }

  lemma PartIdsStep(t: Tables, split: string -> seq<string>, parts: seq<string>, k: nat)
    requires k < |parts|
    ensures PartIds(t, split, parts[k..])
         == (if parts[k] == "" then [] else if parts[k] in t.specials then [t.specials[parts[k]]]
             else ChunkIds(t, split(parts[k]))) + PartIds(t, split, parts[k + 1..])
  {
    assert parts[k..][1..] == parts[k + 1..];
  }

  lemma PartIdsDone(t: Tables, split: string -> seq<string>)
    ensures PartIds(t, split, []) == []
  {
  }

  /** One id of the run, when `out` is the text decoded before it. */
  lemma DecodeFromStep(t: Tables, ids: seq<int>, k: nat, run: seq<byte>, skip: bool, out: string)
    requires Injective(t.vocab) && Injective(t.specials) && k < |ids|
    ensures var special, piece := Named(t.specials, ids[k]), Named(t.vocab, ids[k]);
      After(out, DecodeFrom(t, ids[k..], run, skip)) ==
        if special.Some? then
          After(out + Utf8.Decode(run) + (if skip then "" else special.value), DecodeFrom(t, ids[k + 1..], [], skip))
        else if piece.None? then Err(UnknownId(ids[k]))
        else if BytesOf(piece.value).None? then Err(UnknownSymbol(piece.value))
        else After(out, DecodeFrom(t, ids[k + 1..], run + BytesOf(piece.value).value, skip))
    ensures Utf8.Decode([]) == ""
  {
    hide Named, BytesOf, Utf8.Decode;
    assert ids[k..][1..] == ids[k + 1..];
    var special := Named(t.specials, ids[k]);
    if special.Some? {
      var word := if skip then "" else special.value;
      var rest := DecodeFrom(t, ids[k + 1..], [], skip);
      if rest.Ok? {
        assert out + (Utf8.Decode(run) + word + rest.value) == out + Utf8.Decode(run) + word + rest.value;
      }
    }
    Utf8Nothing();
  }

  lemma DecodeFromEnd(t: Tables, ids: seq<int>, run: seq<byte>, skip: bool, out: string)
    requires Injective(t.vocab) && Injective(t.specials)
    ensures After(out, DecodeFrom(t, ids[|ids|..], run, skip)) == Ok(out + Utf8.Decode(run))
  {
  }

  lemma Utf8Nothing()
    ensures Utf8.Decode([]) == ""
  {
  }

  /** `bytes` and then the rest, if there is a rest. */
  function Prefixed(bytes: seq<byte>, rest: Option<seq<byte>>): Option<seq<byte>> {
    if rest.None? then None else Some(bytes + rest.value)
  }

  lemma BytesOfStep(piece: string, j: nat, bytes: seq<byte>)
    requires j < |piece|
    ensures Prefixed(bytes, BytesOf(piece[j..])) ==
      if ByteOf(piece[j]).None? then None else Prefixed(bytes + [ByteOf(piece[j]).value], BytesOf(piece[j + 1..]))
  {
    hide ByteOf;
    assert piece[j..][1..] == piece[j + 1..];
    var b, rest := ByteOf(piece[j]), BytesOf(piece[j + 1..]);
    if b.Some? && rest.Some? {
      assert bytes + ([b.value] + rest.value) == bytes + [b.value] + rest.value;
    }
  }

  /** Decoding the last few ids before the new ones again, with and without the new ones. */
  function DecodeIncrement(t: Tables, ids: seq<int>, prev: nat): Result<string>
    requires Injective(t.vocab) && Injective(t.specials)
  {
    var window := Min(Max(0, prev - Incremental.LOOKBACK), |ids|);
    var before := DecodeIds(t, ids[window..Min(prev, |ids|)], true);
    var after := DecodeIds(t, ids[window..], true);
    if before.Err? then before
    else if after.Err? then after
    else Ok(Incremental.NewPart(Incremental.StripRight(before.value), Incremental.StripRight(after.value)))
  }

  /** The tokenizer's own pretokenizer is one that only cuts the text, so encoding and then
      decoding is the identity. */
  lemma TokenizerRoundTrip(t: Tables, kind: char -> Kind, text: string, allowedSpecial: bool)
    requires Usable(t)
    ensures "" !in t.order
      && DecodeIds(t, EncodeText(t, Splitter(kind), text, allowedSpecial), false) == Ok(text)
  {
    forall x: string ensures Concat(Splitter(kind)(x)) == x {
      SplitIsCut(kind, x);
    }
    TextRoundTrip(t, Splitter(kind), text, allowedSpecial);
  }

  class Tokenizer {
    const tables: Tables
    const kind: char -> Kind
    const ranks: map<Pair, int>
    const invVocab: map<int, string>
    const invSpecials: map<int, string>
    const byteEncoder: map<int, char>
    const byteDecoder: map<char, byte>
    var cache: map<string, seq<string>>

    ghost predicate Valid()
      reads this
    {
      && Usable(tables)
      && RanksOf(ranks, tables.merges)
      && Inverts(invVocab, tables.vocab) && Inverts(invSpecials, tables.specials)
      && Encoder(byteEncoder) && Decoder(byteDecoder)
      && Remembered(cache, tables.merges)
    }

    /** `names` lists the special strings in the order they were given. */
    constructor (vocab: map<string, int>, merges: seq<Pair>, specials: map<string, int>, names: seq<string>,
        kind: char -> Kind)
      requires Legal(vocab, merges, specials) && forall s :: s in specials <==> s in names
      ensures Valid() && cache == map[]
      ensures tables == Tables(vocab, merges, specials, ByLength(names)) && this.kind == kind
    {
      var enc := ByteEncoder();
      var dec := ByteDecoder(enc);
      var table := RankTable(merges);
      InverseInverts(vocab);
      InverseInverts(specials);
      ByLengthIs(names, specials);
      tables := Tables(vocab, merges, specials, ByLength(names));
      this.kind := kind;
      ranks := table;
      invVocab := Inverse(vocab);
      invSpecials := Inverse(specials);
      byteEncoder := enc;
      byteDecoder := dec;
      cache := map[];
    }

    function Key(p: Pair): (k: int)
      ensures RanksOf(ranks, tables.merges) ==> k == RankKey(tables.merges, p)
    {
      if p in ranks then ranks[p] else 0x4000_0000
    }

    method BestCandidate(candidates: set<Pair>) returns (best: Pair)
      requires candidates != {}
      ensures best in candidates && forall p :: p in candidates ==> Key(best) <= Key(p)
    {
      best :| best in candidates;
      var rest := candidates - {best};
      while rest != {}
        invariant best in candidates && rest <= candidates
        invariant forall p :: p in candidates && p !in rest ==> Key(best) <= Key(p)
        decreases rest
      {
        var p :| p in rest;
        if Key(p) < Key(best) {
          best := p;
        }
        rest := rest - {p};
      }
    }

    /** One pass of the merge loop, reading two symbols at a time where they form the pair. */
    method JoinPair(word: seq<string>, first: string, second: string) returns (out: seq<string>)
      ensures out == Join(word, (first, second), 0)
    {
      hide Join;
      out := [];
      var i := 0;
      assert out + Join(word, (first, second), 0) == Join(word, (first, second), 0);
      while i < |word|
        invariant i <= |word|
        invariant out + Join(word, (first, second), i) == Join(word, (first, second), 0)
      {
        JoinStep(word, (first, second), i, out);
        if i < |word| - 1 && word[i] == first && word[i + 1] == second {
          out := out + [first + second];
          i := i + 2;
        } else {
          out := out + [word[i]];
          i := i + 1;
        }
      }
      JoinDone(word, (first, second), out);
    }

    /** The merge loop; the memo never changes the answer, only who computes it. */
    method Bpe(token: string) returns (result: seq<string>)
      requires Valid()
      modifies this`cache
      ensures Valid()
      ensures result == BpeModel.Bpe(token, tables.merges)
      ensures exists words :: BpeOrder.Reaches(token, tables.merges, words, result)
      ensures cache == old(cache)[token := result]
    {
      hide Best, Join, Rank, Symbol, Injective, Encoder, Decoder, Inverts, LongestFirst, BpeOrder.Reaches;
      ghost var words := BpeOrder.MergesInOrder(token, tables.merges);
      if token in cache {
        return cache[token];
      }
      var word := Letters(token);
      if |word| < 2 {
        MergeStops(word, tables.merges);
        cache := cache[token := word];
        return word;
      }
      while true
        invariant |word| >= 1 && cache == old(cache)
        invariant Merge(word, tables.merges) == BpeModel.Bpe(token, tables.merges)
        decreases |word|
      {
        var candidates := Pairs(word);
        if candidates == {} {
          MergeStops(word, tables.merges);
          break;
        }
        var best := BestCandidate(candidates);
        LeastIsBest(word, tables.merges, best);
        if best !in ranks {
          MergeStops(word, tables.merges);
          break;
        }
        word := JoinPair(word, best.0, best.1);
        if |word| == 1 {
          MergeStops(word, tables.merges);
          break;
        }
      }
      result := word;
      cache := cache[token := result];
    }

    method MapBytes(s: seq<byte>) returns (mapped: string)
      requires Valid()
      ensures mapped == Symbols(s)
    {
      hide Usable, Decoder, Inverts, Remembered, RanksOf, Symbol;
      mapped := "";
      for i := 0 to |s|
        invariant mapped == Symbols(s)[..i]
      {
        mapped := mapped + [byteEncoder[s[i]]];
      }
    }

    /** Pieces to ids: a piece the vocabulary lacks goes out symbol by symbol. */
    method PiecesToIds(pieces: seq<string>, s: seq<byte>) returns (ids: seq<int>)
      requires Valid() && Concat(pieces) == Symbols(s)
      ensures ids == PiecesIds(tables.vocab, pieces)
    {
      hide Encoder, Decoder, Inverts, Remembered, RanksOf, LongestFirst, Concat, CharIds, PiecesIds, Symbols, Injective;
      ids := [];
      assert pieces[0..] == pieces;
      PiecesIdsDone(tables.vocab);
      for k := 0 to |pieces|
        invariant ids + PiecesIds(tables.vocab, pieces[k..]) == PiecesIds(tables.vocab, pieces)
      {
        var piece := pieces[k];
        PiecesIdsStep(tables.vocab, pieces, k);
        if piece !in tables.vocab {
          PieceBytes(pieces, s, k);
          var more := CharsToIds(piece);
          ids := ids + more;
        } else {
          ids := ids + [tables.vocab[piece]];
        }
      }
      assert pieces[|pieces|..] == [] && ids + [] == ids;
    }

    method CharsToIds(piece: string) returns (ids: seq<int>)
      requires forall j :: 0 <= j < |piece| ==> [piece[j]] in tables.vocab
      ensures ids == CharIds(tables.vocab, piece)
    {
      ids := [];
      for j := 0 to |piece|
        invariant ids + CharIds(tables.vocab, piece[j..]) == CharIds(tables.vocab, piece)
      {
        assert piece[j..][1..] == piece[j + 1..];
        ids := ids + [tables.vocab[[piece[j]]]];
      }
    }

    /** Every symbol of a piece of the mapped bytes is in the vocabulary. */
    lemma PieceBytes(pieces: seq<string>, s: seq<byte>, k: nat)
      requires Usable(tables) && Concat(pieces) == Symbols(s) && k < |pieces|
      ensures forall j :: 0 <= j < |pieces[k]| ==> [pieces[k][j]] in tables.vocab
    {
      hide LongestFirst, Injective, Concat;
      forall j | 0 <= j < |pieces[k]| ensures [pieces[k][j]] in tables.vocab {
        CharInside(pieces, k, j);
        var p :| 0 <= p < |s| && pieces[k][j] == Symbols(s)[p];
        SymbolKnown(tables, s[p]);
      }
    }

    method EncodeOrdinary(text: string) returns (ids: seq<int>)
      requires Valid()
      modifies this`cache
      ensures Valid()
      ensures ids == ChunkIds(tables, Split(kind, text))
    {
      hide Encoder, Decoder, Inverts, Remembered, RanksOf, Usable, Split, PiecesIds, BpeModel.Bpe, Symbols, Utf8.Encode;
      ids := [];
      var chunks := Split(kind, text);
      for k := 0 to |chunks|
        invariant Valid()
        invariant ids + ChunkIds(tables, chunks[k..]) == ChunkIds(tables, chunks)
      {
        var s := Utf8.Encode(chunks[k]);
        var mapped := MapBytes(s);
        var pieces := Bpe(mapped);
        BpeSpells(mapped, tables.merges);
        var more := PiecesToIds(pieces, s);
        ChunkIdsStep(tables, chunks, k);
        ids := ids + more;
      }
    }

    /** Special parts by their own id, the others as ordinary text. */
    method EncodeParts(parts: seq<string>) returns (ids: seq<int>)
      requires Valid()
      modifies this`cache
      ensures Valid()
      ensures ids == PartIds(tables, Splitter(kind), parts)
    {
      hide Encoder, Decoder, Inverts, Remembered, RanksOf, Usable, Split, ChunkIds, PartIds;
      ids := [];
      assert parts[0..] == parts;
      for k := 0 to |parts|
        invariant Valid()
        invariant ids + PartIds(tables, Splitter(kind), parts[k..]) == PartIds(tables, Splitter(kind), parts)
      {
        var part := parts[k];
        PartIdsStep(tables, Splitter(kind), parts, k);
        if part == "" {
          continue;
        }
        if part in tables.specials {
          ids := ids + [tables.specials[part]];
        } else {
          var more := EncodeOrdinary(part);
          ids := ids + more;
        }
      }
      PartIdsDone(tables, Splitter(kind));
      assert parts[|parts|..] == [] && ids + [] == ids;
    }

    method Encode(text: string, allowedSpecial: bool) returns (ids: seq<int>)
      requires Valid()
      modifies this`cache
      ensures Valid() && "" !in tables.order
      ensures ids == EncodeText(tables, Splitter(kind), text, allowedSpecial)
    {
      hide Encoder, Decoder, Inverts, Remembered, RanksOf, Usable, Split, Parts, ChunkIds, PartIds;
      NoEmptySpecial(tables);
      if text == "" {
        return [];
      }
      if tables.specials != map[] && allowedSpecial {
        ids := EncodeParts(Parts(text, tables.order, 0, 0));
      } else {
        ids := EncodeOrdinary(text);
      }
    }

    /** Decoding reads runs of ordinary tokens and decodes each run's bytes at once. */
    method Decode(ids: seq<int>, skipSpecial: bool) returns (text: Result<string>)
      requires Valid()
      ensures text == DecodeIds(tables, ids, skipSpecial)
    {
      hide Encoder, Remembered, RanksOf, LongestFirst, Named, Utf8.Decode, BytesOf, DecodeFrom, Decoder, Injective;
      var buf: seq<byte> := [];
      var out := "";
      assert ids[0..] == ids;
      AfterNothing(DecodeIds(tables, ids, skipSpecial));
      for k := 0 to |ids|
        invariant DecodeIds(tables, ids, skipSpecial) == After(out, DecodeFrom(tables, ids[k..], buf, skipSpecial))
      {
        var tid := ids[k];
        DecodeFromStep(tables, ids, k, buf, skipSpecial, out);
        assert forall s: string :: s + "" == s;
        if tid in invSpecials {
          if buf != [] {
            out := out + Utf8.Decode(buf);
            buf := [];
          }
          if !skipSpecial {
            out := out + invSpecials[tid];
          }
          continue;
        }
        if tid !in invVocab {
          return Err(UnknownId(tid));
        }
        var bytes := PieceToBytes(invVocab[tid]);
        if bytes.None? {
          return Err(UnknownSymbol(invVocab[tid]));
        }
        buf := buf + bytes.value;
      }
      DecodeFromEnd(tables, ids, buf, skipSpecial, out);
      Utf8Nothing();
      assert out + "" == out;
      if buf != [] {
        out := out + Utf8.Decode(buf);
      }
      text := Ok(out);
    }

    method PieceToBytes(piece: string) returns (r: Option<seq<byte>>)
      requires Decoder(byteDecoder)
      ensures r == BytesOf(piece)
    {
      hide ByteOf;
      var bytes: seq<byte> := [];
      assert piece[0..] == piece && (BytesOf(piece).Some? ==> [] + BytesOf(piece).value == BytesOf(piece).value);
      for j := 0 to |piece|
        invariant BytesOf(piece) == Prefixed(bytes, BytesOf(piece[j..]))
      {
        BytesOfStep(piece, j, bytes);
        if piece[j] !in byteDecoder {
          return None;
        }
        bytes := bytes + [byteDecoder[piece[j]]];
      }
      assert piece[|piece|..] == "" && bytes + [] == bytes;
      r := Some(bytes);
    }

    /** What the ids after the first `prevLen` add to the rendered text, decoded in a window. */
    method DecodeIncremental(ids: seq<int>, prevLen: nat) returns (piece: Result<string>)
      requires Valid()
      ensures piece == DecodeIncrement(tables, ids, prevLen)
    {
      hide DecodeIds, Usable;
      var window := Min(Max(0, prevLen - Incremental.LOOKBACK), |ids|);
      var before := Decode(ids[window..Min(prevLen, |ids|)], true);
      if before.Err? {
        return before;
      }
      var after := Decode(ids[window..], true);
      if after.Err? {
        return after;
      }
      var rendered := Incremental.StripRight(before.value);
      var longer := Incremental.StripRight(after.value);
      if |longer| <= |rendered| {
        return Ok("");
      }
      piece := Ok(longer[|rendered|..]);
    }
  }
}
