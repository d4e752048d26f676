/** What the tokenizer's text functions mean: the split pattern as an ordered choice of patterns, the specials
    as leftmost longest occurrences, the byte symbols as an increasing renaming, and decoding as a meaning of
    lists of ids. */
module BpeText {
  import opened Prelude
  import opened Utf8
  import opened BpeModel
  import opened BpeProofs
  import opened Pretokenizer
  import BpeOrder

  // ----- the split pattern -----

  predicate AllOf(kind: char -> Kind, w: string, k: Kind) {
    w != "" && forall j | 0 <= j < |w| :: kind(w[j]) == k
  }

  /** A word of one kind, with or without a blank in front. */
  predicate BlankAndAll(kind: char -> Kind, w: string, k: Kind) {
    AllOf(kind, w, k) || (w != "" && w[0] == ' ' && AllOf(kind, w[1..], k))
  }

  const CONTRACTIONS: set<string> := {"'s", "'t", "'re", "'ve", "'m", "'ll", "'d"}

  /** The pattern's alternatives, in the order in which they are tried: the n characters at i match it. */
  predicate Alternative(kind: char -> Kind, text: string, i: nat, n: nat, alt: nat)
    requires i + n <= |text|
  {
    var w := text[i..i + n];
    match alt
    case 0 => w in CONTRACTIONS
    case 1 => BlankAndAll(kind, w, Letter)
    case 2 => BlankAndAll(kind, w, Digit)
    case 3 => BlankAndAll(kind, w, Other)
    case 4 => BlankAndAll(kind, w, Underscore)
    case 5 => AllOf(kind, w, Space) && (i + n == |text| || kind(text[i + n]) == Space)
    case 6 => AllOf(kind, w, Space)
    case _ => n == 1
  }

  predicate Fails(kind: char -> Kind, text: string, i: nat, alt: nat) {
    forall n: nat | i + n <= |text| :: !Alternative(kind, text, i, n, alt)
  }

  /** The match at i: of the first alternative that can match at all, the longest match. */
  predicate IsMatch(kind: char -> Kind, text: string, i: nat, n: nat, alt: nat) {
    && i + n <= |text| && Alternative(kind, text, i, n, alt)
    && (forall n': nat | n < n' && i + n' <= |text| :: !Alternative(kind, text, i, n', alt))
    && (forall alt': nat | alt' < alt :: Fails(kind, text, i, alt'))
  }

  lemma {:induction false} RunIs(kind: char -> Kind, text: string, i: nat, k: Kind)
    requires i <= |text|
    ensures var n := Run(kind, text, i, k);
      && (forall j | i <= j < i + n :: kind(text[j]) == k)
      && (i + n < |text| ==> kind(text[i + n]) != k)
    decreases |text| - i
  {
    if i < |text| && kind(text[i]) == k {
      RunIs(kind, text, i + 1, k);
    }
  }

  lemma AllOfIs(kind: char -> Kind, text: string, i: nat, n: nat, k: Kind)
    requires i + n <= |text|
    ensures AllOf(kind, text[i..i + n], k) <==> 0 < n <= Run(kind, text, i, k)
  {
    RunIs(kind, text, i, k);
    var r, w := Run(kind, text, i, k), text[i..i + n];
    if n > r {
      assert w[r] == text[i + r];
    }
    if 0 < n <= r {
      forall j | 0 <= j < n ensures kind(w[j]) == k {
        assert w[j] == text[i + j];
      }
    }
  }

  lemma WordIs(kind: char -> Kind, text: string, i: nat, n: nat, k: Kind)
    requires i < |text| && i + n <= |text|
    ensures BlankAndAll(kind, text[i..i + n], k) ==> 0 < n <= Word(kind, text, i, k)
    ensures n == Word(kind, text, i, k) > 0 ==> BlankAndAll(kind, text[i..i + n], k)
  {
    hide Run, AllOf;
    AllOfIs(kind, text, i, n, k);
    if n > 0 {
      assert text[i..i + n][1..] == text[i + 1..i + n];
      AllOfIs(kind, text, i + 1, n - 1, k);
      RunNext(kind, text, i, k);
    }
  }

  lemma RunNext(kind: char -> Kind, text: string, i: nat, k: Kind)
    requires i < |text|
    ensures Run(kind, text, i, k) > 0 ==> Run(kind, text, i, k) == 1 + Run(kind, text, i + 1, k)
  {
  }

  lemma ContractionIs(text: string, i: nat, n: nat)
    requires i < |text| && i + n <= |text|
    ensures text[i..i + n] in CONTRACTIONS <==> n == Contraction(text, i) > 0
  {
    var w, rest := text[i..i + n], text[i..];
    assert n >= 1 ==> w[0] == rest[0];
    assert n >= 2 ==> w[1] == rest[1];
    assert n >= 3 ==> w[2] == rest[2];
    if n == 2 {
      assert w == [w[0], w[1]];
    } else if n == 3 {
      assert w == [w[0], w[1], w[2]];
    }
  }

  lemma BlankIs(kind: char -> Kind, text: string, i: nat, n: nat)
    requires i < |text| && i + n <= |text|
    ensures Alternative(kind, text, i, n, 5) ==> 0 < n <= Blank(kind, text, i)
    ensures n == Blank(kind, text, i) > 0 ==> Alternative(kind, text, i, n, 5)
  {
    hide Run, AllOf;
    AllOfIs(kind, text, i, n, Space);
    RunIs(kind, text, i, Space);
    var r := Run(kind, text, i, Space);
    if 0 < n <= r < |text| - i {
      assert n < r ==> kind(text[i + n]) == Space;
    }
  }

  /** How long a match each alternative finds, 0 if none. */
  function Found(kind: char -> Kind, text: string, i: nat, alt: nat): nat
    requires i < |text|
  {
    match alt
    case 0 => Contraction(text, i)
    case 1 => Word(kind, text, i, Letter)
    case 2 => Word(kind, text, i, Digit)
    case 3 => Word(kind, text, i, Other)
    case 4 => Word(kind, text, i, Underscore)
    case 5 => Blank(kind, text, i)
    case 6 => Run(kind, text, i, Space)
    case _ => 1
  }

  lemma FoundIsLongest(kind: char -> Kind, text: string, i: nat, n: nat, alt: nat)
    requires i < |text| && i + n <= |text|
    ensures Alternative(kind, text, i, n, alt) ==> 0 < n <= Found(kind, text, i, alt)
    ensures n == Found(kind, text, i, alt) > 0 ==> Alternative(kind, text, i, n, alt)
  {
    hide Run, AllOf, Word, Blank, Contraction, BlankAndAll;
    match alt
    case 0 => ContractionIs(text, i, n);
    case 1 => WordIs(kind, text, i, n, Letter);
    case 2 => WordIs(kind, text, i, n, Digit);
    case 3 => WordIs(kind, text, i, n, Other);
    case 4 => WordIs(kind, text, i, n, Underscore);
    case 5 => BlankIs(kind, text, i, n);
    case 6 => AllOfIs(kind, text, i, n, Space);
    case _ =>
  }

  lemma FirstFound(kind: char -> Kind, text: string, i: nat, alt: nat)
    requires i < |text| && alt <= 7 && Found(kind, text, i, alt) > 0
    requires forall a: nat | a < alt :: Found(kind, text, i, a) == 0
    ensures Match(kind, text, i) == Found(kind, text, i, alt)
  {
    hide Run, Word, Blank, Contraction;
    assert alt > 0 ==> Found(kind, text, i, 0) == 0;
    assert alt > 1 ==> Found(kind, text, i, 1) == 0;
    assert alt > 2 ==> Found(kind, text, i, 2) == 0;
    assert alt > 3 ==> Found(kind, text, i, 3) == 0;
    assert alt > 4 ==> Found(kind, text, i, 4) == 0;
    assert alt > 5 ==> Found(kind, text, i, 5) == 0;
    assert alt > 6 ==> Found(kind, text, i, 6) == 0;
  }

  /** The match at a position is that of the pattern. */
  lemma MatchIsMatch(kind: char -> Kind, text: string, i: nat) returns (alt: nat)
    requires i < |text|
    ensures IsMatch(kind, text, i, Match(kind, text, i), alt)
  {
    hide Run, Word, Blank, Contraction, Alternative;
    alt := 0;
    while alt < 7 && Found(kind, text, i, alt) == 0
      invariant alt <= 7 && forall a: nat | a < alt :: Found(kind, text, i, a) == 0
    {
      alt := alt + 1;
    }
    FirstFound(kind, text, i, alt);
    forall a: nat | a < alt ensures Fails(kind, text, i, a) {
      forall n: nat | i + n <= |text| ensures !Alternative(kind, text, i, n, a) {
        FoundIsLongest(kind, text, i, n, a);
      }
    }
    forall n: nat | Match(kind, text, i) <= n && i + n <= |text|
      ensures Alternative(kind, text, i, n, alt) <==> n == Match(kind, text, i)
    {
      FoundIsLongest(kind, text, i, n, alt);
    }
  }

  /** Each chunk of the split is the pattern's match where the chunks before it end. */
  lemma {:induction false} SplitMatches(kind: char -> Kind, text: string, i: nat, k: nat) returns (alt: nat)
    requires i <= |text| && k < |SplitFrom(kind, text, i)|
    ensures var chunks := SplitFrom(kind, text, i);
      var at := i + |Concat(chunks[..k])|;
      && IsMatch(kind, text, at, |chunks[k]|, alt) && chunks[k] == text[at..at + |chunks[k]|]
    decreases |text| - i
  {
    hide Match, IsMatch;
    var n, chunks := Match(kind, text, i), SplitFrom(kind, text, i);
    if k == 0 {
      alt := MatchIsMatch(kind, text, i);
      assert chunks[..0] == [];
    } else {
      alt := SplitMatches(kind, text, i + n, k - 1);
      assert chunks[..k] == [chunks[0]] + chunks[1..][..k - 1];
      assert Concat(chunks[..k]) == chunks[0] + Concat(chunks[1..][..k - 1]);
    }
  }

  // ----- encoding -----

  /** The ids of one chunk: those of the pieces into which the merges take its symbols, one for one. */
  ghost predicate SpelledBy(t: Tables, chunk: string, ids: seq<int>) {
    exists words: seq<seq<string>>, pieces: seq<string> ::
      BpeOrder.Reaches(Symbols(Encode(chunk)), t.merges, words, pieces) && Looked(t.vocab, pieces, ids)
  }

  predicate Looked(vocab: map<string, int>, pieces: seq<string>, ids: seq<int>) {
    |ids| == |pieces| && forall k | 0 <= k < |ids| :: pieces[k] in vocab && ids[k] == vocab[pieces[k]]
  }

  lemma {:induction false} PiecesLooked(vocab: map<string, int>, pieces: seq<string>)
    requires forall k | 0 <= k < |pieces| :: pieces[k] in vocab
    ensures Looked(vocab, pieces, PiecesIds(vocab, pieces))
  {
    if pieces != [] {
      PiecesLooked(vocab, pieces[1..]);
    }
  }

  /** With a vocabulary that holds the result of every merge, ordinary text is encoded chunk by chunk, and each
      chunk by the ids of its pieces. */
  lemma {:induction false} ChunksEncode(t: Tables, chunks: seq<string>) returns (rows: seq<seq<int>>)
    requires Usable(t) && forall i :: 0 <= i < |t.merges| ==> t.merges[i].0 + t.merges[i].1 in t.vocab
    ensures |rows| == |chunks| && ChunkIds(t, chunks) == Concat(rows)
    ensures forall i | 0 <= i < |chunks| :: SpelledBy(t, chunks[i], rows[i])
    decreases |chunks|
  {
    hide Usable, Bpe, BpeOrder.Reaches, Symbols, Encode, Looked;
    rows := [];
    if chunks != [] {
      var symbols := Symbols(Encode(chunks[0]));
      var pieces := Bpe(symbols, t.merges);
      forall k: nat | k < |pieces| ensures pieces[k] in t.vocab {
        FallbackUnreachable(t, Encode(chunks[0]), k);
      }
      PiecesLooked(t.vocab, pieces);
      var words := BpeOrder.MergesInOrder(symbols, t.merges);
      var first := PiecesIds(t.vocab, pieces);
      assert SpelledBy(t, chunks[0], first);
      var rest := ChunksEncode(t, chunks[1..]);
      rows := [first] + rest;
      assert rows[1..] == rest;
    }
  }

  lemma {:induction false} CharIdsKnown(vocab: map<string, int>, piece: string)
    ensures forall id | id in CharIds(vocab, piece) :: id in vocab.Values
  {
    if piece != "" {
      CharIdsKnown(vocab, piece[1..]);
    }
  }

  lemma {:induction false} PiecesIdsKnown(vocab: map<string, int>, pieces: seq<string>)
    ensures forall id | id in PiecesIds(vocab, pieces) :: id in vocab.Values
  {
    hide CharIds;
    if pieces != [] {
      CharIdsKnown(vocab, pieces[0]);
      PiecesIdsKnown(vocab, pieces[1..]);
    }
  }

  lemma {:induction false} ChunkIdsKnown(t: Tables, chunks: seq<string>)
    ensures forall id | id in ChunkIds(t, chunks) :: id in t.vocab.Values
  {
    hide PiecesIds, Bpe, Symbols, Encode;
    if chunks != [] {
      PiecesIdsKnown(t.vocab, Bpe(Symbols(Encode(chunks[0])), t.merges));
      ChunkIdsKnown(t, chunks[1..]);
    }
  }

  /** Unless specials are allowed, no text is encoded to a special id, whatever it spells. */
  lemma NoSpecialsUnlessAllowed(t: Tables, split: string -> seq<string>, text: string)
    requires Usable(t)
    ensures "" !in t.order && forall id | id in EncodeText(t, split, text, false) :: id !in t.specials.Values
  {
    hide ChunkIds;
    NoEmptySpecial(t);
    ChunkIdsKnown(t, split(text));
  }

  // ----- special strings -----

  predicate Occurs(text: string, s: string, i: nat) {
    i <= |text| && s <= text[i..]
  }

  /** Ordinary parts stand at the even places and specials at the odd ones; part k begins at `at`. No special
      begins inside an ordinary part, and a special part is the longest that begins where it does. */
  ghost predicate PartIs(text: string, specials: map<string, int>, parts: seq<string>, k: nat, at: nat)
    requires k < |parts|
  {
    if k % 2 == 0 then
      forall i: nat, s | at <= i < at + |parts[k]| && s in specials :: !Occurs(text, s, i)
    else
      && parts[k] in specials && Occurs(text, parts[k], at)
      && forall s | s in specials && Occurs(text, s, at) :: |s| <= |parts[k]|
  }

  lemma {:induction false} SpecialIsLongest(text: string, order: seq<string>, i: nat)
    requires i <= |text| && forall j, k :: 0 <= j < k < |order| ==> |order[j]| >= |order[k]|
    ensures var r := SpecialAt(text, order, i);
      if r.Some? then r.value in order && Occurs(text, r.value, i)
                      && forall s | s in order && Occurs(text, s, i) :: |s| <= |r.value|
      else forall s | s in order :: !Occurs(text, s, i)
    decreases |order|
  {
    if order != [] && !(order[0] <= text[i..]) {
      SpecialIsLongest(text, order[1..], i);
    }
  }

  lemma PartShifts(text: string, specials: map<string, int>, rest: seq<string>, parts: seq<string>, k: nat, at: nat)
    requires 2 <= k < |parts| && |rest| == |parts| - 2 && parts[k] == rest[k - 2]
    requires PartIs(text, specials, rest, k - 2, at)
    ensures PartIs(text, specials, parts, k, at)
  {
  }

  lemma OffsetOf(from: nat, ordinary: string, s: string, rest: seq<string>, k: nat)
    requires k < |rest| + 2
    ensures var parts := [ordinary, s] + rest;
      && (k == 0 ==> |Concat(parts[..k])| == 0)
      && (k == 1 ==> |Concat(parts[..k])| == |ordinary|)
      && (k >= 2 ==> |Concat(parts[..k])| == |ordinary| + |s| + |Concat(rest[..k - 2])| && parts[k] == rest[k - 2])
  {
    var parts := [ordinary, s] + rest;
    if k == 1 {
      assert parts[..1] == [ordinary] && Concat([ordinary]) == ordinary + "";
    } else if k >= 2 {
      assert parts[..k] == [ordinary, s] + rest[..k - 2];
      ConcatTwo(ordinary, s, rest[..k - 2]);
    }
  }

  lemma PartsUnfold(text: string, order: seq<string>, from: nat, i: nat)
    requires from <= i <= |text| && "" !in order
    ensures i == |text| ==> Parts(text, order, from, i) == [text[from..]]
    ensures i < |text| ==>
      var r := SpecialAt(text, order, i);
      Parts(text, order, from, i) ==
        if r.None? then Parts(text, order, from, i + 1)
        else [text[from..i], r.value] + Parts(text, order, i + |r.value|, i + |r.value|)
  {
    hide SpecialAt;
  }

  lemma {:induction false} PartsAre(text: string, specials: map<string, int>, order: seq<string>, from: nat, i: nat,
      k: nat)
    requires from <= i <= |text| && "" !in order && LongestFirst(specials, order)
    requires forall j: nat, s | from <= j < i && s in specials :: !Occurs(text, s, j)
    ensures |Parts(text, order, from, i)| % 2 == 1
    ensures var parts := Parts(text, order, from, i);
      k < |parts| ==> PartIs(text, specials, parts, k, from + |Concat(parts[..k])|)
    decreases |text| - i
  {
    hide SpecialAt, Concat, Occurs, PartIs, Parts;
    PartsUnfold(text, order, from, i);
    var parts := Parts(text, order, from, i);
    if i < |text| {
      SpecialIsLongest(text, order, i);
      var r := SpecialAt(text, order, i);
      if r.None? {
        PartsAre(text, specials, order, from, i + 1, k);
      } else {
        var s := r.value;
        var rest := Parts(text, order, i + |s|, i + |s|);
        PartsAre(text, specials, order, i + |s|, i + |s|, Max(0, k - 2));
        if k < |parts| {
          OffsetOf(from, text[from..i], s, rest, k);
          if k < 2 {
            FirstTwo(text, specials, parts, k, from, i);
          } else {
            PartShifts(text, specials, rest, parts, k, i + |s| + |Concat(rest[..k - 2])|);
          }
        }
      }
    } else {
      OffsetOf(from, text[from..], "", [], 0);
      FirstTwo(text, specials, parts, 0, from, i);
    }
  }

  lemma FirstTwo(text: string, specials: map<string, int>, parts: seq<string>, k: nat, from: nat, i: nat)
    requires k < |parts| && k < 2 && from <= i <= |text| && parts[0] == text[from..i]
    requires forall j: nat, s | from <= j < i && s in specials :: !Occurs(text, s, j)
    requires k == 1 ==> parts[1] in specials && Occurs(text, parts[1], i)
    requires k == 1 ==> forall s | s in specials && Occurs(text, s, i) :: |s| <= |parts[1]|
    ensures PartIs(text, specials, parts, k, from + if k == 0 then 0 else |text[from..i]|)
  {
    hide Occurs;
  }

  /** Splitting around the specials takes them leftmost and longest, and loses nothing. */
  lemma SpecialsAreSplit(t: Tables, text: string, k: nat)
    requires Usable(t)
    ensures "" !in t.order && Concat(Parts(text, t.order, 0, 0)) == text
    ensures var parts := Parts(text, t.order, 0, 0);
      |parts| % 2 == 1 && (k < |parts| ==> PartIs(text, t.specials, parts, k, |Concat(parts[..k])|))
  {
    hide Parts, Legal, PartIs;
    NoEmptySpecial(t);
    PartsAre(text, t.specials, t.order, 0, 0, k);
    PartsSpell(text, t.order, 0, 0);
    assert text[0..] == text;
  }

  // ----- byte symbols -----

  /** Printable bytes stand for themselves; the others are renamed, in order, to the characters from 256 on. */
  lemma SymbolsAreInOrder(a: byte, b: byte)
    ensures Printable(a) ==> Symbol(a) as int == a as int
    ensures !Printable(a) ==> 256 <= Symbol(a) as int < 256 + 68
    ensures !Printable(a) && !Printable(b) && a < b ==> Symbol(a) < Symbol(b)
  {
    if !Printable(a) && !Printable(b) && a < b {
      UnprintableGrows(a, b);
    }
    BelowIs(a);
  }

  lemma {:induction false} BelowIs(b: nat)
    requires b <= 256
    ensures UnprintableBelow(b) == if b <= 0x21 then b else if b <= 0x7F then 0x21 else if b <= 0xA1 then b - 0x5E
                                   else if b <= 0xAD then 0x43 else 0x44
  {
    if b > 0 {
      BelowIs(b - 1);
    }
  }

  // ----- decoding -----

  /** The bytes of an ordinary token, if the id and all its symbols are known. */
  function TokenBytes(t: Tables, id: int): Option<seq<byte>>
    requires Injective(t.vocab)
  {
    var piece := Named(t.vocab, id);
    if piece.None? then None else BytesOf(piece.value)
  }

  /** The id can be decoded. */
  predicate Known(t: Tables, id: int)
    requires Injective(t.vocab) && Injective(t.specials)
  {
    id in t.specials.Values || TokenBytes(t, id).Some?
  }

  /** Decoding succeeds exactly when every id is known. */
  lemma {:induction false} DecodesKnown(t: Tables, ids: seq<int>, run: seq<byte>, skip: bool)
    requires Injective(t.vocab) && Injective(t.specials)
    ensures DecodeFrom(t, ids, run, skip).Ok? <==> forall id | id in ids :: Known(t, id)
    decreases |ids|
  {
    hide Decode, BytesOf, Named;
    if ids != [] {
      NamedSpecial(t, ids[0]);
      FirstKnown(t, ids);
      DecodesKnown(t, ids[1..], [], skip);
      if TokenBytes(t, ids[0]).Some? {
        DecodesKnown(t, ids[1..], run + TokenBytes(t, ids[0]).value, skip);
      }
    }
  }

  lemma FirstKnown(t: Tables, ids: seq<int>)
    requires Injective(t.vocab) && Injective(t.specials) && ids != []
    ensures (forall id | id in ids :: Known(t, id)) <==> Known(t, ids[0]) && forall id | id in ids[1..] :: Known(t, id)
  {
    assert ids == [ids[0]] + ids[1..];
  }

  lemma NamedSpecial(t: Tables, id: int)
    requires Injective(t.specials)
    ensures Named(t.specials, id).Some? <==> id in t.specials.Values
  {
  }

  /** The bytes of a run of ordinary tokens. */
  function AllBytes(t: Tables, ids: seq<int>): seq<byte>
    requires Injective(t.vocab)
  {
    if ids == [] then []
    else (if TokenBytes(t, ids[0]).Some? then TokenBytes(t, ids[0]).value else []) + AllBytes(t, ids[1..])
  }

  /** Ordinary tokens up to the next special, or to the end, are decoded by their bytes together. */
  lemma {:induction false} RunDecodes(t: Tables, ids: seq<int>, rest: seq<int>, run: seq<byte>, skip: bool)
    requires Injective(t.vocab) && Injective(t.specials)
    requires forall id | id in ids :: id !in t.specials.Values && Known(t, id)
    ensures DecodeFrom(t, ids + rest, run, skip) == DecodeFrom(t, rest, run + AllBytes(t, ids), skip)
    decreases |ids|
  {
    hide Decode, BytesOf, Named;
    if ids == [] {
      assert ids + rest == rest && run + [] == run;
    } else {
      NamedSpecial(t, ids[0]);
      assert (ids + rest)[1..] == ids[1..] + rest;
      RunDecodes(t, ids[1..], rest, run + TokenBytes(t, ids[0]).value, skip);
      assert run + TokenBytes(t, ids[0]).value + AllBytes(t, ids[1..]) == run + AllBytes(t, ids);
    }
  }

  /** What decoding means: the text of the bytes between the specials, and the specials themselves unless
      they are skipped. */
  lemma DecodeMeans(t: Tables, ids: seq<int>, special: string, rest: seq<int>, skip: bool)
    requires Injective(t.vocab) && Injective(t.specials) && special in t.specials
    requires forall id | id in ids :: id !in t.specials.Values && Known(t, id)
    ensures DecodeIds(t, ids, skip) == Ok(Decode(AllBytes(t, ids)))
    ensures var later := DecodeIds(t, rest, skip);
      DecodeIds(t, ids + [t.specials[special]] + rest, skip) ==
        if later.Err? then later
        else Ok(Decode(AllBytes(t, ids)) + (if skip then "" else special) + later.value)
  {
    hide Decode, BytesOf, Named;
    var more := [t.specials[special]] + rest;
    RunDecodes(t, ids, [], [], skip);
    RunDecodes(t, ids, more, [], skip);
    assert [] + AllBytes(t, ids) == AllBytes(t, ids) && ids + [] == ids;
    assert ids + more == ids + [t.specials[special]] + rest && more[1..] == rest;
    NamedIs(t.specials, special);
  }
}
