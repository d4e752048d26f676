/** The chunks of a stream one by one: what each carries, which is the last, and that together they are what
    is served. */
module StreamChunks {
  import opened Prelude
  import opened Utf8
  import opened BpeModel
  import opened BpeProofs
  import opened Incremental
  import opened StopModel
  import opened StopProofs
  import opened StreamModel
  import opened Bpe

  /** The text of the chunk that a push sends, if it sends one. */
  function TextOf(r: Result<Option<Chunk>>): string {
    if r.Ok? && r.value.Some? then r.value.value.text else ""
  }

  /** The texts of the first n pushes' chunks, one after the other. */
  function Sent(t: Tables, stops: seq<string>, ids: seq<int>, n: nat): string
    requires Injective(t.vocab) && Injective(t.specials) && n <= |ids|
  {
    if n == 0 then ""
    else Sent(t, stops, ids, n - 1) + TextOf(Push(t, PushAll(t, stops, ids, n - 1), ids[n - 1]).1)
  }

  lemma {:induction false} SentIsText(t: Tables, stops: seq<string>, ids: seq<int>, n: nat)
    requires Injective(t.vocab) && Injective(t.specials) && n <= |ids|
    ensures PushAll(t, stops, ids, n).text == Sent(t, stops, ids, n)
  {
    hide DecodeIncrement, Feed, Injective;
    if n > 0 {
      SentIsText(t, stops, ids, n - 1);
      var a := PushAll(t, stops, ids, n - 1);
      assert a.text + "" == a.text;
    }
  }

  /** What goes on the wire is the chunks and then what the end of the stream releases. */
  lemma ChunksAreServed(t: Tables, stops: seq<string>, ids: seq<int>)
    requires Injective(t.vocab) && Injective(t.specials)
    ensures Served(t, stops, ids) == Sent(t, stops, ids, |ids|) + Finalize(PushAll(t, stops, ids, |ids|)).1
  {
    hide Injective, Push;
    SentIsText(t, stops, ids, |ids|);
    var a := PushAll(t, stops, ids, |ids|);
    assert a.text + "" == a.text;
  }

  lemma TriggeredIs(stops: seq<string>, pieces: seq<string>)
    requires NonEmpty(stops)
    ensures FeedAll(Checker(stops, "", None), pieces).0.triggered.Some? <==> HasStop(Concat(pieces), stops)
  {
    hide FeedAll, HasStop, FirstStop, CanGrow, StoppedAfter;
    var c := Checker(stops, "", None);
    if stops == [] {
      NoStops(c, pieces);
    } else {
      StartsQuiet(stops);
      FeedAllKeeps(c, "", "", pieces);
      assert "" + Concat(pieces) == Concat(pieces);
    }
  }

  /** A push of an ordinary id that completes characters sends a chunk with what has become safe to send, unless
      that is nothing and no stop has been found; the chunk names the id and is marked as the last exactly when
      the text so far contains a stop. */
  lemma ChunkIs(t: Tables, stops: seq<string>, ids: seq<int>, n: nat)
    requires Injective(t.vocab) && Injective(t.specials) && Ordinary(t, ids) && n < |ids| && NonEmpty(stops)
    ensures var r := Push(t, PushAll(t, stops, ids, n), ids[n]).1;
      var tokens := Tokens(t, ids);
      var grown := Increment(tokens[..n + 1], n, LOOKBACK) != "";
      var stopped := HasStop(Streamed(tokens, n + 1, LOOKBACK), stops);
      && r.Ok?
      && (!grown ==> r.value.None?)
      && (r.value.Some? ==> r.value.value.id == ids[n] && (r.value.value.final <==> stopped))
      && (grown && r.value.None? ==> !stopped && Sent(t, stops, ids, n + 1) == Sent(t, stops, ids, n))
  {
    hide Injective, DecodeIncrement, Feed, FeedAll, HasStop, Increment, Streamed, IdBytes, Pieces;
    var tokens := Tokens(t, ids);
    PushAllIs(t, stops, ids, n);
    PushAllIs(t, stops, ids, n + 1);
    assert ids[..n] + [ids[n]] == ids[..n + 1];
    OrdinaryIncrement(t, ids[..n + 1], n);
    assert Tokens(t, ids[..n + 1]) == tokens[..n + 1];
    TriggeredIs(stops, Pieces(tokens, n + 1));
    PiecesSpell(tokens, n + 1);
    assert Sent(t, stops, ids, n) + "" == Sent(t, stops, ids, n);
  }

  lemma {:induction false} SpecialAddsNothing(t: Tables, ids: seq<int>, special: string, run: seq<byte>)
    requires Injective(t.vocab) && Injective(t.specials) && special in t.specials
    ensures DecodeFrom(t, ids + [t.specials[special]], run, true) == DecodeFrom(t, ids, run, true)
    decreases |ids|
  {
    hide Decode, BytesOf, Named;
    var more := ids + [t.specials[special]];
    if ids == [] {
      NamedIs(t.specials, special);
      assert more[1..] == [];
      NothingMore(t, run);
      assert Decode(run) + "" + "" == Decode(run);
    } else {
      assert more[1..] == ids[1..] + [t.specials[special]];
      SpecialAddsNothing(t, ids[1..], special, []);
      var piece := Named(t.vocab, ids[0]);
      if piece.Some? && BytesOf(piece.value).Some? {
        SpecialAddsNothing(t, ids[1..], special, run + BytesOf(piece.value).value);
      }
    }
  }

  lemma NothingMore(t: Tables, run: seq<byte>)
    requires Injective(t.vocab) && Injective(t.specials)
    ensures DecodeFrom(t, [], [], true) == Ok("") && DecodeFrom(t, [], run, true) == Ok(Decode(run))
  {
  }

  /** A special id renders nothing and sends nothing. */
  lemma SpecialIsSilent(t: Tables, a: Assembler, special: string)
    requires Injective(t.vocab) && Injective(t.specials) && special in t.specials && a.upto == |a.ids|
    requires DecodeIds(t, a.ids[Max(0, a.upto - LOOKBACK)..], true).Ok?
    ensures var (a', r) := Push(t, a, t.specials[special]);
      r == Ok(None) && a' == a.(ids := a.ids + [t.specials[special]], upto := a.upto + 1)
  {
    hide DecodeFrom, Feed, StripRight;
    var id, window := t.specials[special], Max(0, a.upto - LOOKBACK);
    var ids := a.ids + [id];
    SpecialAddsNothing(t, a.ids[window..], special, []);
    assert ids[window..] == a.ids[window..] + [id];
    assert ids[window..a.upto] == a.ids[window..];
  }
}
