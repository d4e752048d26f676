/** Token ids in, text out: the incremental decoder feeding the stop checker. */
module StreamModel {
  import opened Prelude
  import opened Utf8
  import opened BpeModel
  import opened Incremental
  import opened StopModel
  import opened StopProofs
  import opened Bpe

  datatype Chunk = Chunk(text: string, id: int, final: bool)

  datatype Assembler = Assembler(ids: seq<int>, upto: nat, checker: Checker, text: string)

  /** One id pushed: the assembler afterwards, and the chunk to send, if there is one. */
  function Push(t: Tables, a: Assembler, id: int): (Assembler, Result<Option<Chunk>>)
    requires Injective(t.vocab) && Injective(t.specials)
  {
    var ids := a.ids + [id];
    var piece := DecodeIncrement(t, ids, a.upto);
    if piece.Err? then (a.(ids := ids), Err(piece.error))
    else if piece.value == "" then (a.(ids := ids, upto := |ids|), Ok(None))
    else
      var (checker, emit) := Feed(a.checker, piece.value);
      var stopped := checker.triggered.Some?;
      (Assembler(ids, |ids|, checker, a.text + emit),
       Ok(if emit == "" && !stopped then None else Some(Chunk(emit, id, stopped))))
  }

  /** The end of the stream: what was held goes out, unless a stop was found. */
  function Finalize(a: Assembler): (Assembler, string) {
    if a.checker.triggered.Some? then (a, "")
    else (a.(checker := a.checker.(buffer := ""), text := a.text + a.checker.buffer), a.checker.buffer)
  }

  function NewAssembler(stops: seq<string>): Assembler {
    Assembler([], 0, Checker(stops, "", None), "")
  }

  function PushAll(t: Tables, stops: seq<string>, ids: seq<int>, n: nat): Assembler
    requires Injective(t.vocab) && Injective(t.specials) && n <= |ids|
  {
    if n == 0 then NewAssembler(stops) else Push(t, PushAll(t, stops, ids, n - 1), ids[n - 1]).0
  }

  /** Everything the stream of ids puts on the wire. */
  function Served(t: Tables, stops: seq<string>, ids: seq<int>): string
    requires Injective(t.vocab) && Injective(t.specials)
  {
    Finalize(PushAll(t, stops, ids, |ids|)).0.text
  }

  // ----- ordinary ids -----

  /** The bytes of an ordinary id. */
  function IdBytes(t: Tables, id: int): Option<seq<byte>>
    requires Injective(t.vocab) && Injective(t.specials)
  {
    if Named(t.specials, id).Some? || Named(t.vocab, id).None? then None
    else BytesOf(Named(t.vocab, id).value)
  }

  predicate Ordinary(t: Tables, ids: seq<int>)
    requires Injective(t.vocab) && Injective(t.specials)
  {
    forall i :: 0 <= i < |ids| ==> IdBytes(t, ids[i]).Some?
  }

  function Tokens(t: Tables, ids: seq<int>): (r: seq<seq<byte>>)
    requires Injective(t.vocab) && Injective(t.specials) && Ordinary(t, ids)
    ensures |r| == |ids| && forall i :: 0 <= i < |r| ==> r[i] == IdBytes(t, ids[i]).value
  {
    seq(|ids|, i requires 0 <= i < |ids| => IdBytes(t, ids[i]).value)
  }

  lemma {:induction false} OrdinaryDecodes(t: Tables, ids: seq<int>, run: seq<byte>, skip: bool)
    requires Injective(t.vocab) && Injective(t.specials) && Ordinary(t, ids)
    ensures DecodeFrom(t, ids, run, skip) == Ok(Decode(run + Concat(Tokens(t, ids))))
    decreases |ids|
  {
    hide Decode, Named, BytesOf, Injective;
    if ids == [] {
      assert run + Concat(Tokens(t, ids)) == run;
    } else {
      var b := IdBytes(t, ids[0]).value;
      OrdinaryDecodes(t, ids[1..], run + b, skip);
      assert Tokens(t, ids)[1..] == Tokens(t, ids[1..]);
      assert run + b + Concat(Tokens(t, ids[1..])) == run + Concat(Tokens(t, ids));
    }
  }

  lemma OrdinaryIncrement(t: Tables, ids: seq<int>, prev: nat)
    requires Injective(t.vocab) && Injective(t.specials) && Ordinary(t, ids) && prev <= |ids|
    ensures DecodeIncrement(t, ids, prev) == Ok(Increment(Tokens(t, ids), prev, LOOKBACK))
  {
    hide Decode, StripRight, DecodeFrom, IdBytes, Injective, NewPart;
    var window := Max(0, prev - LOOKBACK);
    var tokens := Tokens(t, ids);
    OrdinaryDecodes(t, ids[window..prev], [], true);
    OrdinaryDecodes(t, ids[window..], [], true);
    assert Tokens(t, ids[window..prev]) == tokens[window..prev] && Tokens(t, ids[window..]) == tokens[window..];
    assert [] + Concat(tokens[window..prev]) == Concat(tokens[window..prev]);
    assert [] + Concat(tokens[window..]) == Concat(tokens[window..]);
  }

  // ----- the stream -----

  /** The non-empty pieces that reach the checker. */
  function Pieces(tokens: seq<seq<byte>>, n: nat): seq<string>
    requires n <= |tokens|
  {
    if n == 0 then []
    else
      var piece := Increment(tokens[..n], n - 1, LOOKBACK);
      Pieces(tokens, n - 1) + if piece == "" then [] else [piece]
  }

  lemma {:induction false} PiecesSpell(tokens: seq<seq<byte>>, n: nat)
    requires n <= |tokens|
    ensures Concat(Pieces(tokens, n)) == Streamed(tokens, n, LOOKBACK)
  {
    hide Increment;
    if n > 0 {
      PiecesSpell(tokens, n - 1);
      var piece := Increment(tokens[..n], n - 1, LOOKBACK);
      ConcatSnoc(Pieces(tokens, n - 1), piece);
      assert Streamed(tokens, n - 1, LOOKBACK) + "" == Streamed(tokens, n - 1, LOOKBACK);
      assert Pieces(tokens, n - 1) + [] == Pieces(tokens, n - 1);
    }
  }

  lemma ConcatSnoc(pieces: seq<string>, piece: string)
    ensures Concat(pieces + [piece]) == Concat(pieces) + piece
  {
    ConcatParts(pieces + [piece], |pieces|);
    assert (pieces + [piece])[..|pieces|] == pieces && (pieces + [piece])[|pieces|..] == [piece];
    assert Concat([piece]) == piece + "" == piece;
  }

  lemma {:induction false} FeedAllSnoc(c: Checker, pieces: seq<string>, piece: string)
    ensures var (c1, out1) := FeedAll(c, pieces);
      var (c2, out2) := Feed(c1, piece);
      FeedAll(c, pieces + [piece]) == (c2, out1 + out2)
    decreases |pieces|
  {
    hide Feed;
    if pieces == [] {
      assert [piece][1..] == [] && pieces + [piece] == [piece];
      assert "" + Feed(c, piece).1 == Feed(c, piece).1 == Feed(c, piece).1 + "";
    } else {
      var (c0, out0) := Feed(c, pieces[0]);
      FeedAllSnoc(c0, pieces[1..], piece);
      assert (pieces + [piece])[1..] == pieces[1..] + [piece];
      var (c1, out1) := FeedAll(c0, pieces[1..]);
      assert out0 + (out1 + Feed(c1, piece).1) == (out0 + out1) + Feed(c1, piece).1;
    }
  }

  /** The assembler is the checker fed with the pieces of the incremental decoder. */
  lemma {:induction false} PushAllIs(t: Tables, stops: seq<string>, ids: seq<int>, n: nat)
    requires Injective(t.vocab) && Injective(t.specials) && Ordinary(t, ids) && n <= |ids|
    ensures var (c, out) := FeedAll(Checker(stops, "", None), Pieces(Tokens(t, ids), n));
      PushAll(t, stops, ids, n) == Assembler(ids[..n], n, c, out)
  {
    hide Feed, FeedAll, Increment, DecodeIncrement, IdBytes, Injective;
    if n == 0 {
      NothingFed(Checker(stops, "", None));
    } else {
      PushAllIs(t, stops, ids, n - 1);
      var tokens := Tokens(t, ids);
      assert ids[..n - 1] + [ids[n - 1]] == ids[..n];
      OrdinaryIncrement(t, ids[..n], n - 1);
      assert Tokens(t, ids[..n]) == tokens[..n];
      var piece := Increment(tokens[..n], n - 1, LOOKBACK);
      FeedAllSnoc(Checker(stops, "", None), Pieces(tokens, n - 1), piece);
      assert Pieces(tokens, n - 1) + [] == Pieces(tokens, n - 1);
    }
  }

  lemma NothingFed(c: Checker)
    ensures FeedAll(c, []) == (c, "")
  {
  }

  /** A stream of ordinary ids puts on the wire what the checker emits for some cutting of the
      text the ids spell. */
  lemma ServedIs(t: Tables, stops: seq<string>, ids: seq<int>, text: string)
    requires Injective(t.vocab) && Injective(t.specials) && Ordinary(t, ids) && Spells(Tokens(t, ids), text)
    ensures Served(t, stops, ids) == Output(stops, Pieces(Tokens(t, ids), |ids|))
    ensures Concat(Pieces(Tokens(t, ids), |ids|)) == text
  {
    hide FeedAll, Pieces, IdBytes, Injective, Streamed, Spells;
    PushAllIs(t, stops, ids, |ids|);
    PiecesSpell(Tokens(t, ids), |ids|);
    StreamIsDecode(text, Tokens(t, ids));
  }

  /** Without a stop in it the whole text is served; a stop is never served. */
  lemma ServedText(t: Tables, stops: seq<string>, ids: seq<int>, text: string)
    requires Injective(t.vocab) && Injective(t.specials) && Ordinary(t, ids) && Spells(Tokens(t, ids), text)
    requires NonEmpty(stops)
    ensures !HasStop(text, stops) ==> Served(t, stops, ids) == text
    ensures !HasStop(Served(t, stops, ids), stops)
  {
    hide HasStop, Output, Pieces, Served, IdBytes, Injective, Spells;
    ServedIs(t, stops, ids, text);
    OutputIs(stops, Pieces(Tokens(t, ids), |ids|));
    OutputHasNoStop(stops, Pieces(Tokens(t, ids), |ids|));
  }

  /** When nested stops are shadowed, exactly the text before its first stop is served, so the
      way the text was tokenized never shows. */
  lemma ServedIgnoresTokens(t: Tables, stops: seq<string>, ids: seq<int>, text: string)
    requires Injective(t.vocab) && Injective(t.specials) && Ordinary(t, ids) && Spells(Tokens(t, ids), text)
    requires NonEmpty(stops) && NestingShadowed(stops) && HasStop(text, stops)
    ensures var out := Served(t, stops, ids);
      |out| <= |text| && out == text[..|out|] && FirstStop(text, stops, |out|)
  {
    hide HasStop, Output, Pieces, Served, IdBytes, Injective, Spells, FirstStop, NestingShadowed;
    ServedIs(t, stops, ids, text);
    ShadowedOutput(stops, Pieces(Tokens(t, ids), |ids|));
  }
}
