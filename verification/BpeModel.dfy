/** Byte-level BPE: byte symbols, the merge loop, encoding and decoding, as functions. */
module BpeModel {
  import opened Prelude
  import opened Utf8

  type Pair = (string, string)

  // ----- byte symbols -----

  predicate Printable(b: int) {
    0x21 <= b <= 0x7E || 0xA1 <= b <= 0xAC || 0xAE <= b <= 0xFF
  }

  /** How many byte values below b are not printable. */
  function UnprintableBelow(b: nat): (n: nat)
    ensures n <= b
  {
    if b == 0 then 0 else UnprintableBelow(b - 1) + if Printable(b - 1) then 0 else 1
  }

  /** Printable bytes stand for themselves; the others take code points from 256 up, in order. */
  function Symbol(b: byte): char {
    if Printable(b) then b as char else (256 + UnprintableBelow(b)) as char
  }

  lemma {:induction false} UnprintableGrows(a: nat, b: nat)
    requires a < b && !Printable(a)
    ensures UnprintableBelow(a) < UnprintableBelow(b)
  {
    if a < b - 1 {
      UnprintableGrows(a, b - 1);
    }
  }

  lemma SymbolInjective(a: byte, b: byte)
    requires Symbol(a) == Symbol(b)
    ensures a == b
  {
    if !Printable(a) && !Printable(b) {
      if a < b {
        UnprintableGrows(a, b);
      } else if b < a {
        UnprintableGrows(b, a);
      }
    }
  }

  function Symbols(s: seq<byte>): (r: string)
    ensures |r| == |s| && forall i :: 0 <= i < |s| ==> r[i] == Symbol(s[i])
  {
    if s == [] then "" else [Symbol(s[0])] + Symbols(s[1..])
  }

  /** The byte whose symbol c is, if any. */
  function ByteOf(c: char, b: nat := 0): (r: Option<byte>)
    ensures r.Some? ==> Symbol(r.value) == c
    decreases 256 - b
  {
    if b >= 256 then None
    else if Symbol(b) == c then Some(b)
    else ByteOf(c, b + 1)
  }

  function BytesOf(s: string): Option<seq<byte>> {
    if s == "" then Some([])
    else if ByteOf(s[0]).None? || BytesOf(s[1..]).None? then None
    else Some([ByteOf(s[0]).value] + BytesOf(s[1..]).value)
  }

  // ----- merging -----

  /** The rank of a pair: its last place in the merge table, or -1. */
  function Rank(merges: seq<Pair>, p: Pair): (r: int)
    ensures -1 <= r < |merges|
    ensures r >= 0 ==> merges[r] == p
  {
    if merges == [] then -1
    else if merges[|merges| - 1] == p then |merges| - 1
    else Rank(merges[..|merges| - 1], p)
  }

  /** The adjacent pair at position i. */
  function PairOf(word: seq<string>, i: nat): Pair
    requires i < |word| - 1
  {
    (word[i], word[i + 1])
  }

  /** Of the first n adjacent pairs of the word, the one with the lowest rank, if any has one. */
  function Best(word: seq<string>, merges: seq<Pair>, n: nat): (best: Option<Pair>)
    requires n == 0 || n < |word|
    ensures best.Some? ==> Rank(merges, best.value) >= 0
    ensures best.Some? ==> exists i :: 0 <= i < n && PairOf(word, i) == best.value
  {
    if n == 0 then None
    else
      var before := Best(word, merges, n - 1);
      var p := PairOf(word, n - 1);
      if Rank(merges, p) >= 0 && (before.None? || Rank(merges, p) < Rank(merges, before.value)) then Some(p)
      else before
  }

  /** From position i on, with every occurrence of the pair, left to right, joined. */
  function Join(word: seq<string>, p: Pair, i: nat): (r: seq<string>)
    requires i <= |word|
    ensures |r| <= |word| - i
    ensures i < |word| ==> |r| > 0
    ensures (exists k :: i <= k < |word| - 1 && PairOf(word, k) == p) ==> |r| < |word| - i
    decreases |word| - i
  {
    if i == |word| then []
    else if i < |word| - 1 && PairOf(word, i) == p then [p.0 + p.1] + Join(word, p, i + 2)
    else [word[i]] + Join(word, p, i + 1)
  }

  /** The loop: join the best-ranked pair everywhere until no adjacent pair is ranked. */
  function Merge(word: seq<string>, merges: seq<Pair>): seq<string>
    decreases |word|
  {
    var best := Best(word, merges, Max(0, |word| - 1));
    if best.None? then word else Merge(Join(word, best.value, 0), merges)
  }

  function Letters(token: string): (r: seq<string>)
    ensures |r| == |token| && forall i :: 0 <= i < |r| ==> r[i] == [token[i]]
  {
    if token == "" then [] else [[token[0]]] + Letters(token[1..])
  }

  function Bpe(token: string, merges: seq<Pair>): seq<string> {
    Merge(Letters(token), merges)
  }

  // ----- the tokenizer -----

  /** `order` lists the special strings in the order in which the splitter tries them. */
  datatype Tables = Tables(vocab: map<string, int>, merges: seq<Pair>, specials: map<string, int>, order: seq<string>)

  predicate Injective(m: map<string, int>) {
    forall a, b :: a in m && b in m && m[a] == m[b] ==> a == b
  }

  /** What the tables must provide: an id for every byte symbol, ids all distinct, no empty
      special. */
  ghost predicate Legal(vocab: map<string, int>, merges: seq<Pair>, specials: map<string, int>) {
    && (forall b: byte :: [Symbol(b)] in vocab)
    && Injective(vocab) && Injective(specials)
    && (forall s, w :: s in specials && w in vocab ==> specials[s] != vocab[w])
    && "" !in specials
    && |merges| <= 0x4000_0000
  }

  /** The specials are tried longest first. */
  ghost predicate LongestFirst(specials: map<string, int>, order: seq<string>) {
    && (forall s :: s in specials <==> s in order)
    && (forall i, j :: 0 <= i < j < |order| ==> |order[i]| >= |order[j]|)
  }

  ghost predicate Usable(t: Tables) {
    Legal(t.vocab, t.merges, t.specials) && LongestFirst(t.specials, t.order)
  }

  /** The ids of one piece: its own, or those of its characters when it has none. */
  function PieceIds(vocab: map<string, int>, piece: string): seq<int> {
    if piece in vocab then [vocab[piece]] else CharIds(vocab, piece)
  }

  function CharIds(vocab: map<string, int>, piece: string): seq<int> {
    if piece == "" then []
    else (if [piece[0]] in vocab then [vocab[[piece[0]]]] else []) + CharIds(vocab, piece[1..])
  }

  function PiecesIds(vocab: map<string, int>, pieces: seq<string>): seq<int> {
    if pieces == [] then [] else PieceIds(vocab, pieces[0]) + PiecesIds(vocab, pieces[1..])
  }

  /** The ids of text already cut into chunks by the pretokenizer. */
  function ChunkIds(t: Tables, chunks: seq<string>): seq<int> {
    if chunks == [] then []
    else PiecesIds(t.vocab, Bpe(Symbols(Encode(chunks[0])), t.merges)) + ChunkIds(t, chunks[1..])
  }

  // ----- special strings -----

  /** The first of the specials, in the order given, that occurs at position i. */
  function SpecialAt(text: string, order: seq<string>, i: nat): (r: Option<string>)
    requires i <= |text|
    ensures r.Some? ==> r.value in order && r.value <= text[i..]
  {
    if order == [] then None
    else if order[0] <= text[i..] then Some(order[0])
    else SpecialAt(text, order[1..], i)
  }

  /** Splitting around the specials: ordinary and special parts in turn. The scan is at
      position i of the text and the current ordinary part began at `from`. */
  function Parts(text: string, order: seq<string>, from: nat, i: nat): seq<string>
    requires from <= i <= |text| && "" !in order
    decreases |text| - i
  {
    if i == |text| then [text[from..]]
    else
      match SpecialAt(text, order, i)
      case None => Parts(text, order, from, i + 1)
      case Some(s) => [text[from..i], s] + Parts(text, order, i + |s|, i + |s|)
  }

  function PartIds(t: Tables, split: string -> seq<string>, parts: seq<string>): seq<int> {
    if parts == [] then []
    else
      (if parts[0] == "" then []
       else if parts[0] in t.specials then [t.specials[parts[0]]]
       else ChunkIds(t, split(parts[0]))) + PartIds(t, split, parts[1..])
  }

  function EncodeText(t: Tables, split: string -> seq<string>, text: string, allowed: bool): seq<int>
    requires "" !in t.order
  {
    if text == "" then []
    else if t.specials != map[] && allowed then PartIds(t, split, Parts(text, t.order, 0, 0))
    else ChunkIds(t, split(text))
  }

  // ----- decoding -----

  datatype Result<+T> = Ok(value: T) | Err(error: Error)

  datatype Error = UnknownId(id: int) | UnknownSymbol(piece: string)

  /** The string with the given id. */
  function Named(m: map<string, int>, id: int): (r: Option<string>)
    requires Injective(m)
    ensures r.Some? <==> id in m.Values
    ensures r.Some? ==> r.value in m && m[r.value] == id
  {
    var inverse := map s | s in m :: m[s] := s;
    if id in inverse then Some(inverse[id]) else None
  }

  /** Decoding from ids on, with the bytes of the run of ordinary tokens being read. */
  function DecodeFrom(t: Tables, ids: seq<int>, run: seq<byte>, skipSpecial: bool): Result<string>
    requires Injective(t.vocab) && Injective(t.specials)
  {
    if ids == [] then Ok(Decode(run))
    else
      var special := Named(t.specials, ids[0]);
      if special.Some? then
        var rest := DecodeFrom(t, ids[1..], [], skipSpecial);
        if rest.Err? then rest else Ok(Decode(run) + (if skipSpecial then "" else special.value) + rest.value)
      else
        var piece := Named(t.vocab, ids[0]);
        if piece.None? then Err(UnknownId(ids[0]))
        else
          var bytes := BytesOf(piece.value);
          if bytes.None? then Err(UnknownSymbol(piece.value))
          else DecodeFrom(t, ids[1..], run + bytes.value, skipSpecial)
  }

  function DecodeIds(t: Tables, ids: seq<int>, skipSpecial: bool): Result<string>
    requires Injective(t.vocab) && Injective(t.specials)
  {
    DecodeFrom(t, ids, [], skipSpecial)
  }
}
