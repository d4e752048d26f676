/** Encoding followed by decoding gives the text back, for every merge table, every way of
    cutting the text into chunks and every usable vocabulary. */
module BpeProofs {
  import opened Prelude
  import opened Utf8
  import opened BpeModel

  // ----- the merge loop -----

  lemma {:induction false} BestIsLeast(word: seq<string>, merges: seq<Pair>, n: nat, i: nat)
    requires i < n < |word|
    ensures var best, r := Best(word, merges, n), Rank(merges, PairOf(word, i));
      r < 0 || (best.Some? && Rank(merges, best.value) <= r)
  {
    if i < n - 1 {
      BestIsLeast(word, merges, n - 1, i);
    }
  }

  lemma {:induction false} JoinKeeps(word: seq<string>, p: Pair, i: nat)
    requires i <= |word|
    ensures Concat(Join(word, p, i)) == Concat(word[i..])
    decreases |word| - i
  {
    if i < |word| {
      assert word[i..][1..] == word[i + 1..];
      if i < |word| - 1 && PairOf(word, i) == p {
        JoinKeeps(word, p, i + 2);
        assert word[i + 1..][1..] == word[i + 2..];
        assert p.0 + (p.1 + Concat(word[i + 2..])) == (p.0 + p.1) + Concat(word[i + 2..]);
      } else {
        JoinKeeps(word, p, i + 1);
      }
    }
  }

  /** The loop only regroups the symbols, and it ends with no adjacent pair in the table. */
  lemma {:induction false} MergeIs(word: seq<string>, merges: seq<Pair>)
    ensures Concat(Merge(word, merges)) == Concat(word)
    ensures var w := Merge(word, merges); forall i :: 0 <= i < |w| - 1 ==> Rank(merges, PairOf(w, i)) < 0
    decreases |word|
  {
    hide Rank, Best, Join, PairOf;
    var n := Max(0, |word| - 1);
    var best := Best(word, merges, n);
    if best.Some? {
      JoinKeeps(word, best.value, 0);
      assert word[0..] == word;
      MergeIs(Join(word, best.value, 0), merges);
    } else {
      forall i | 0 <= i < |word| - 1 ensures Rank(merges, PairOf(word, i)) < 0 {
        BestIsLeast(word, merges, n, i);
      }
    }
  }

  lemma {:induction false} LettersSpell(token: string)
    ensures Concat(Letters(token)) == token
  {
    if token != "" {
      LettersSpell(token[1..]);
    }
  }

  lemma BpeSpells(token: string, merges: seq<Pair>)
    ensures Concat(Bpe(token, merges)) == token
    ensures var w := Bpe(token, merges); forall i :: 0 <= i < |w| - 1 ==> Rank(merges, PairOf(w, i)) < 0
  {
    LettersSpell(token);
    MergeIs(Letters(token), merges);
  }

  /** A piece is a single symbol, or the two sides of some entry of the table joined. */
  predicate FromTable(piece: string, merges: seq<Pair>) {
    |piece| == 1 || exists k :: 0 <= k < |merges| && piece == merges[k].0 + merges[k].1
  }

  lemma {:induction false} JoinFromTable(word: seq<string>, p: Pair, i: nat, merges: seq<Pair>)
    requires i <= |word| && Rank(merges, p) >= 0
    requires forall k :: 0 <= k < |word| ==> FromTable(word[k], merges)
    ensures forall k :: 0 <= k < |Join(word, p, i)| ==> FromTable(Join(word, p, i)[k], merges)
    decreases |word| - i
  {
    if i < |word| {
      if i < |word| - 1 && PairOf(word, i) == p {
        JoinFromTable(word, p, i + 2, merges);
        assert merges[Rank(merges, p)] == p;
      } else {
        JoinFromTable(word, p, i + 1, merges);
      }
    }
  }

  lemma {:induction false} MergeFromTable(word: seq<string>, merges: seq<Pair>)
    requires forall k :: 0 <= k < |word| ==> FromTable(word[k], merges)
    ensures forall k :: 0 <= k < |Merge(word, merges)| ==> FromTable(Merge(word, merges)[k], merges)
    decreases |word|
  {
    var best := Best(word, merges, Max(0, |word| - 1));
    if best.Some? {
      JoinFromTable(word, best.value, 0, merges);
      MergeFromTable(Join(word, best.value, 0), merges);
    }
  }

  /** The encoder's fallback to single symbols is dead code when the vocabulary holds every
      byte symbol and the result of every merge. */
  lemma FallbackUnreachable(t: Tables, s: seq<byte>, k: nat)
    requires Usable(t)
    requires forall i :: 0 <= i < |t.merges| ==> t.merges[i].0 + t.merges[i].1 in t.vocab
    requires k < |Bpe(Symbols(s), t.merges)|
    ensures Bpe(Symbols(s), t.merges)[k] in t.vocab
  {
    hide Merge, Letters, Usable, Rank, Symbols;
    var pieces := Bpe(Symbols(s), t.merges);
    MergeFromTable(Letters(Symbols(s)), t.merges);
    BpeSpells(Symbols(s), t.merges);
    assert FromTable(pieces[k], t.merges);
    if |pieces[k]| == 1 {
      CharInside(pieces, k, 0);
      var p :| 0 <= p < |s| && pieces[k][0] == Symbols(s)[p];
      SymbolKnown(t, s[p]);
      assert pieces[k] == [Symbol(s[p])];
    }
  }

  lemma {:induction false} CharInside(pieces: seq<string>, k: nat, j: nat)
    requires k < |pieces| && j < |pieces[k]|
    ensures exists p :: 0 <= p < |Concat(pieces)| && pieces[k][j] == Concat(pieces)[p]
  {
    if k == 0 {
      assert Concat(pieces)[j] == pieces[0][j];
    } else {
      CharInside(pieces[1..], k - 1, j);
      var p :| 0 <= p < |Concat(pieces[1..])| && pieces[k][j] == Concat(pieces[1..])[p];
      assert Concat(pieces)[|pieces[0]| + p] == Concat(pieces[1..])[p];
    }
  }

  // ----- symbols decode -----

  lemma {:induction false} ByteOfSymbol(b: byte, from: nat)
    requires from <= b
    ensures ByteOf(Symbol(b), from) == Some(b)
    decreases b - from
  {
    if Symbol(from) == Symbol(b) {
      SymbolInjective(from, b);
    } else {
      ByteOfSymbol(b, from + 1);
    }
  }

  lemma {:induction false} BytesOfSymbols(s: seq<byte>)
    ensures BytesOf(Symbols(s)) == Some(s)
  {
    if s != [] {
      ByteOfSymbol(s[0], 0);
      assert Symbols(s)[1..] == Symbols(s[1..]);
      BytesOfSymbols(s[1..]);
      assert [s[0]] + s[1..] == s;
    }
  }

  lemma SymbolsSlice(s: seq<byte>, i: nat, j: nat)
    requires i <= j <= |s|
    ensures Symbols(s)[i..j] == Symbols(s[i..j])
  {
    hide Symbols, Symbol;
    forall k | 0 <= k < j - i ensures Symbols(s)[i..j][k] == Symbols(s[i..j])[k] {
      assert Symbols(s)[i + k] == Symbol(s[i + k]);
    }
  }

  // ----- decoding what encoding emits -----

  lemma SymbolKnown(t: Tables, b: byte)
    requires Usable(t)
    ensures [Symbol(b)] in t.vocab
  {
  }

  lemma NamedIs(m: map<string, int>, s: string)
    requires Injective(m) && s in m
    ensures Named(m, m[s]) == Some(s)
  {
  }

  lemma NotSpecial(t: Tables, w: string)
    requires Usable(t) && w in t.vocab
    ensures Named(t.specials, t.vocab[w]).None?
  {
  }

  /** One vocabulary id at the front adds its bytes to the run. */
  lemma DecodeId(t: Tables, s: seq<byte>, rest: seq<int>, run: seq<byte>, skip: bool)
    requires Usable(t) && Symbols(s) in t.vocab
    ensures DecodeFrom(t, [t.vocab[Symbols(s)]] + rest, run, skip) == DecodeFrom(t, rest, run + s, skip)
  {
    hide Named, BytesOf;
    var w := Symbols(s);
    NotSpecial(t, w);
    NamedIs(t.vocab, w);
    BytesOfSymbols(s);
    assert ([t.vocab[w]] + rest)[1..] == rest;
  }

  lemma {:induction false} DecodeChars(t: Tables, s: seq<byte>, rest: seq<int>, run: seq<byte>, skip: bool)
    requires Usable(t)
    ensures DecodeFrom(t, CharIds(t.vocab, Symbols(s)) + rest, run, skip) == DecodeFrom(t, rest, run + s, skip)
    decreases |s|
  {
    hide DecodeFrom, Usable;
    if s == [] {
      assert CharIds(t.vocab, Symbols(s)) + rest == rest && run + s == run;
    } else {
      var c := [Symbol(s[0])];
      assert c in t.vocab by {
        SymbolKnown(t, s[0]);
      }
      assert c == Symbols([s[0]]) && Symbols(s)[1..] == Symbols(s[1..]);
      var more := CharIds(t.vocab, Symbols(s[1..])) + rest;
      assert CharIds(t.vocab, Symbols(s)) + rest == [t.vocab[c]] + more;
      DecodeId(t, [s[0]], more, run, skip);
      DecodeChars(t, s[1..], rest, run + [s[0]], skip);
      assert run + [s[0]] + s[1..] == run + s;
    }
  }

  lemma DecodePiece(t: Tables, s: seq<byte>, rest: seq<int>, run: seq<byte>, skip: bool)
    requires Usable(t)
    ensures DecodeFrom(t, PieceIds(t.vocab, Symbols(s)) + rest, run, skip) == DecodeFrom(t, rest, run + s, skip)
  {
    hide DecodeFrom, Usable, CharIds, Symbols;
    if Symbols(s) in t.vocab {
      DecodeId(t, s, rest, run, skip);
    } else {
      DecodeChars(t, s, rest, run, skip);
    }
  }

  lemma FirstPiece(pieces: seq<string>, s: seq<byte>) returns (k: nat)
    requires Concat(pieces) == Symbols(s) && pieces != []
    ensures k <= |s| && pieces[0] == Symbols(s[..k]) && Concat(pieces[1..]) == Symbols(s[k..])
  {
    k := |pieces[0]|;
    assert Symbols(s) == pieces[0] + Concat(pieces[1..]);
    SymbolsSlice(s, 0, k);
    SymbolsSlice(s, k, |s|);
    assert pieces[0] == Symbols(s)[0..k] && Concat(pieces[1..]) == Symbols(s)[k..|s|];
  }

  lemma {:induction false} DecodePieces(t: Tables, pieces: seq<string>, s: seq<byte>, rest: seq<int>,
      run: seq<byte>, skip: bool)
    requires Usable(t) && Concat(pieces) == Symbols(s)
    ensures DecodeFrom(t, PiecesIds(t.vocab, pieces) + rest, run, skip) == DecodeFrom(t, rest, run + s, skip)
    decreases |pieces|
  {
    hide DecodeFrom, Usable, PieceIds, Symbol;
    if pieces == [] {
      assert PiecesIds(t.vocab, pieces) + rest == rest && run + s == run;
    } else {
      var k := FirstPiece(pieces, s);
      var more := PiecesIds(t.vocab, pieces[1..]) + rest;
      assert PiecesIds(t.vocab, pieces) + rest == PieceIds(t.vocab, pieces[0]) + more;
      DecodePiece(t, s[..k], more, run, skip);
      DecodePieces(t, pieces[1..], s[k..], rest, run + s[..k], skip);
      assert run + s[..k] + s[k..] == run + s;
    }
  }

  lemma {:induction false} DecodeChunks(t: Tables, chunks: seq<string>, rest: seq<int>, run: seq<byte>, skip: bool)
    requires Usable(t)
    ensures DecodeFrom(t, ChunkIds(t, chunks) + rest, run, skip)
         == DecodeFrom(t, rest, run + Encode(Concat(chunks)), skip)
    decreases |chunks|
  {
    hide DecodeFrom, Usable, PiecesIds, Bpe, EncodeChar, Symbols;
    if chunks == [] {
      assert ChunkIds(t, chunks) + rest == rest && run + Encode("") == run;
    } else {
      var s := Encode(chunks[0]);
      var pieces := Bpe(Symbols(s), t.merges);
      BpeSpells(Symbols(s), t.merges);
      var more := ChunkIds(t, chunks[1..]) + rest;
      assert ChunkIds(t, chunks) + rest == PiecesIds(t.vocab, pieces) + more;
      DecodePieces(t, pieces, s, more, run, skip);
      DecodeChunks(t, chunks[1..], rest, run + s, skip);
      EncodeConcat(chunks[0], Concat(chunks[1..]));
      assert run + s + Encode(Concat(chunks[1..])) == run + Encode(Concat(chunks));
    }
  }

  /** Ordinary encoding, however the pretokenizer cuts the text: decoding gives it back. */
  lemma ChunksRoundTrip(t: Tables, chunks: seq<string>, skip: bool)
    requires Usable(t)
    ensures DecodeIds(t, ChunkIds(t, chunks), skip) == Ok(Concat(chunks))
  {
    hide Usable, EncodeChar;
    DecodeChunks(t, chunks, [], [], skip);
    assert ChunkIds(t, chunks) + [] == ChunkIds(t, chunks);
    assert [] + Encode(Concat(chunks)) == Encode(Concat(chunks));
    RoundTrip(Concat(chunks));
  }

  // ----- specials -----

  lemma ConcatTwo(a: string, b: string, rest: seq<string>)
    ensures Concat([a, b] + rest) == a + (b + Concat(rest))
  {
    assert ([a, b] + rest)[1..] == [b] + rest && ([b] + rest)[1..] == rest;
  }

  lemma CutText(text: string, from: nat, i: nat, s: string)
    requires from <= i <= |text| && s <= text[i..]
    ensures text[from..] == text[from..i] + (s + text[i + |s|..])
  {
    assert text[i..] == s + text[i + |s|..];
  }

  lemma {:induction false} PartsSpell(text: string, order: seq<string>, from: nat, i: nat)
    requires from <= i <= |text| && "" !in order
    ensures Concat(Parts(text, order, from, i)) == text[from..]
    decreases |text| - i
  {
    hide SpecialAt;
    if i == |text| {
      assert text[from..] + "" == text[from..];
    } else {
      var r := SpecialAt(text, order, i);
      if r.None? {
        PartsSpell(text, order, from, i + 1);
      } else {
        var s := r.value;
        var rest := Parts(text, order, i + |s|, i + |s|);
        PartsSpell(text, order, i + |s|, i + |s|);
        ConcatTwo(text[from..i], s, rest);
        CutText(text, from, i, s);
      }
    }
  }

  /** The parts joined, without the special ones when they are skipped. */
  function Kept(t: Tables, parts: seq<string>, skip: bool): string {
    if parts == [] then ""
    else (if skip && parts[0] in t.specials then "" else parts[0]) + Kept(t, parts[1..], skip)
  }

  lemma {:induction false} KeptAll(t: Tables, parts: seq<string>)
    ensures Kept(t, parts, false) == Concat(parts)
  {
    if parts != [] {
      KeptAll(t, parts[1..]);
    }
  }

  ghost predicate Cuts(split: string -> seq<string>) {
    forall text: string :: Concat(split(text)) == text
  }

  lemma DecodeSpecial(t: Tables, s: string, rest: seq<int>, u: string, skip: bool)
    requires Usable(t) && s in t.specials
    ensures var r := DecodeFrom(t, rest, [], skip);
      DecodeFrom(t, [t.specials[s]] + rest, Encode(u), skip)
      == if r.Err? then r else Ok(u + (if skip then "" else s) + r.value)
  {
    hide Named, EncodeChar;
    NamedIs(t.specials, s);
    RoundTrip(u);
    assert ([t.specials[s]] + rest)[1..] == rest;
  }

  lemma DecodeOrdinary(t: Tables, split: string -> seq<string>, part: string, rest: seq<int>, u: string, skip: bool)
    requires Usable(t) && Cuts(split)
    ensures DecodeFrom(t, ChunkIds(t, split(part)) + rest, Encode(u), skip)
         == DecodeFrom(t, rest, Encode(u + part), skip)
  {
    hide DecodeFrom, Usable, Encode, ChunkIds, Bpe;
    DecodeChunks(t, split(part), rest, Encode(u), skip);
    EncodeConcat(u, part);
  }

  lemma EncodeNothing()
    ensures Encode("") == []
  {
  }

  lemma PartsNext(t: Tables, split: string -> seq<string>, parts: seq<string>, skip: bool)
    requires parts != []
    ensures PartIds(t, split, parts) ==
      (if parts[0] == "" then []
       else if parts[0] in t.specials then [t.specials[parts[0]]]
       else ChunkIds(t, split(parts[0]))) + PartIds(t, split, parts[1..])
    ensures Kept(t, parts, skip) ==
      (if parts[0] in t.specials && skip then "" else parts[0]) + Kept(t, parts[1..], skip)
  {
    hide ChunkIds;
  }

  lemma {:induction false} DecodeParts(t: Tables, split: string -> seq<string>, parts: seq<string>, u: string,
      skip: bool)
    requires Usable(t) && Cuts(split)
    ensures DecodeFrom(t, PartIds(t, split, parts), Encode(u), skip) == Ok(u + Kept(t, parts, skip))
    decreases |parts|
  {
    hide DecodeFrom, Usable, Encode, ChunkIds, Bpe, PartIds, Kept;
    if parts == [] {
      DecodeNoParts(t, split, u, skip);
    } else {
      var part, more, rest := parts[0], PartIds(t, split, parts[1..]), Kept(t, parts[1..], skip);
      PartsNext(t, split, parts, skip);
      if part == "" {
        NothingJoins(more, rest);
        DecodeParts(t, split, parts[1..], u, skip);
      } else if part in t.specials {
        DecodeSpecial(t, part, more, u, skip);
        EncodeNothing();
        DecodeParts(t, split, parts[1..], "", skip);
        ThreeJoin(u, if skip then "" else part, rest);
      } else {
        DecodeOrdinary(t, split, part, more, u, skip);
        DecodeParts(t, split, parts[1..], u + part, skip);
        ThreeJoin(u, part, rest);
      }
    }
  }

  lemma DecodeNoParts(t: Tables, split: string -> seq<string>, u: string, skip: bool)
    requires Usable(t)
    ensures DecodeFrom(t, PartIds(t, split, []), Encode(u), skip) == Ok(u + Kept(t, [], skip))
  {
    hide DecodeFrom, Usable, Encode;
    DecodeRun(t, u, skip);
    assert u + "" == u;
  }

  lemma NothingJoins(ids: seq<int>, rest: string)
    ensures [] + ids == ids && "" + rest == rest
  {
  }

  lemma ThreeJoin(a: string, b: string, c: string)
    ensures a + b + c == a + (b + c) && "" + c == c
  {
  }

  lemma DecodeRun(t: Tables, u: string, skip: bool)
    requires Usable(t)
    ensures DecodeFrom(t, [], Encode(u), skip) == Ok(u)
  {
    RoundTrip(u);
  }

  lemma NoEmptySpecial(t: Tables)
    requires Usable(t)
    ensures "" !in t.specials && "" !in t.order
  {
  }

  /** Encoding and decoding give the text back, specials included, for every pretokenizer that
      only cuts the text, every merge table and every usable vocabulary. */
  lemma TextRoundTrip(t: Tables, split: string -> seq<string>, text: string, allowed: bool)
    requires Usable(t) && Cuts(split)
    ensures "" !in t.order && DecodeIds(t, EncodeText(t, split, text, allowed), false) == Ok(text)
  {
    hide Usable, Parts, PartIds, EncodeChar, ChunkIds, DecodeFrom;
    NoEmptySpecial(t);
    if text == "" {
      DecodeRun(t, "", false);
    } else if t.specials != map[] && allowed {
      var parts := Parts(text, t.order, 0, 0);
      DecodeParts(t, split, parts, "", false);
      PartsSpell(text, t.order, 0, 0);
      KeptAll(t, parts);
      assert text[0..] == text && "" + Kept(t, parts, false) == Kept(t, parts, false);
    } else {
      ChunksRoundTrip(t, split(text), false);
    }
  }

  /** Skipping specials on the way back drops exactly the special parts. */
  lemma TextSkipsSpecials(t: Tables, split: string -> seq<string>, text: string)
    requires Usable(t) && Cuts(split) && t.specials != map[] && text != ""
    ensures "" !in t.order
      && DecodeIds(t, EncodeText(t, split, text, true), true) == Ok(Kept(t, Parts(text, t.order, 0, 0), true))
  {
    hide Usable, Parts, PartIds, EncodeChar, DecodeFrom;
    NoEmptySpecial(t);
    var parts := Parts(text, t.order, 0, 0);
    DecodeParts(t, split, parts, "", true);
    assert "" + Kept(t, parts, true) == Kept(t, parts, true);
  }
}
