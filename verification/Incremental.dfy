/** Decoding a token stream one token at a time, each time from a window of the last few
    tokens, reassembles the text exactly; how far the window must look back for that. */
module Incremental {
  import opened Prelude
  import opened Utf8

  /** How many tokens before the new ones the tokenizer decodes again. */
  const LOOKBACK: nat := 8

  /** str.rstrip of U+FFFD. */
  function StripRight(text: string): string {
    if text != "" && text[|text| - 1] == REPLACEMENT then StripRight(text[..|text| - 1]) else text
  }

  function NewPart(before: string, after: string): string {
    if |after| <= |before| then "" else after[|before|..]
  }

  /** What the tokens after the first `prev` add to the rendered text. */
  function Increment(tokens: seq<seq<byte>>, prev: nat, lookback: nat): string
    requires prev <= |tokens|
  {
    var window := Max(0, prev - lookback);
    NewPart(StripRight(Decode(Concat(tokens[window..prev]))), StripRight(Decode(Concat(tokens[window..]))))
  }

  /** Everything rendered after pushing the first n tokens one at a time. */
  function Streamed(tokens: seq<seq<byte>>, n: nat, lookback: nat): string
    requires n <= |tokens|
  {
    if n == 0 then "" else Streamed(tokens, n - 1, lookback) + Increment(tokens[..n], n - 1, lookback)
  }

  /** The tokens, none of them empty, spell the text, in which U+FFFD does not occur. */
  ghost predicate Spells(tokens: seq<seq<byte>>, text: string) {
    && (forall i :: 0 <= i < |tokens| ==> tokens[i] != [])
    && Concat(tokens) == Encode(text)
    && REPLACEMENT !in text
  }

  // ----- stripping -----

  lemma {:induction false} ReplacementsEnd(p: nat)
    requires p > 0
    ensures Replacements(p) == Replacements(p - 1) + [REPLACEMENT]
  {
    if p > 1 {
      ReplacementsEnd(p - 1);
    }
  }

  lemma {:induction false} StripsReplacements(text: string, p: nat)
    ensures StripRight(text + Replacements(p)) == StripRight(text)
  {
    if p > 0 {
      ReplacementsEnd(p);
      assert (text + Replacements(p))[..|text| + |Replacements(p)| - 1] == text + Replacements(p - 1);
      StripsReplacements(text, p - 1);
    } else {
      assert text + Replacements(0) == text;
    }
  }

  // ----- one window -----

  /** A window that ends before the torn character does holds strays only. */
  lemma TornDecodes(text: string, a: nat, b: nat)
    requires a <= b <= |Encode(text)| && b - a < Strays(text, a)
    ensures StripRight(Decode(Encode(text)[a..b])) == ""
  {
    hide Decode, EncodeChar, Strays, Begun, Encode;
    var all := Encode(text);
    SplitAt(text, a);
    DecodeStrays(all[a..b], []);
    assert all[a..b] + [] == all[a..b];
    assert Replacements(b - a) + Decode([]) == "" + Replacements(b - a) by {
      DecodeNothing();
    }
    StripsReplacements("", b - a);
  }

  /** A window that holds the rest of the torn character and m bytes after it. */
  lemma RestDecodes(text: string, a: nat, b: nat, m: nat)
    requires REPLACEMENT !in text && a <= b <= |Encode(text)| && b - a == Strays(text, a) + m
    ensures var s, u := Strays(text, a), text[Begun(text, a)..];
      var w := Whole(u, m);
      StripRight(Decode(Encode(text)[a..b])) == if w == 0 then "" else Replacements(s) + u[..w]
  {
    hide Decode, EncodeChar, Strays, Begun, Whole, Encode;
    var all, s, u := Encode(text), Strays(text, a), text[Begun(text, a)..];
    SplitAt(text, a);
    WindowSplits(all, Encode(u), a, b, s, m);
    DecodeStrays(all[a..a + s], Encode(u)[..m]);
    DecodeHead(u, m);
    var p: nat :| Decode(Encode(u)[..m]) == u[..Whole(u, m)] + Replacements(p);
    StripKeeps(s, u, Whole(u, m), p);
  }

  lemma WindowSplits(all: seq<byte>, rest: seq<byte>, a: nat, b: nat, s: nat, m: nat)
    requires a + s + m == b <= |all| && all[a + s..] == rest
    ensures m <= |rest| && all[a..b] == all[a..a + s] + rest[..m]
  {
    assert all[a + s..][..m] == all[a + s..b];
  }

  /** Decoding bytes a to b of the text and stripping gives the characters that lie wholly in
      between, after one replacement for each byte of a character that starts earlier. */
  lemma WindowDecodes(text: string, a: nat, b: nat)
    requires REPLACEMENT !in text && a <= b <= |Encode(text)|
    ensures var s, u := Strays(text, a), text[Begun(text, a)..];
      var w := Whole(u, b - a - s);
      StripRight(Decode(Encode(text)[a..b])) == if w == 0 then "" else Replacements(s) + u[..w]
  {
    hide Decode, EncodeChar, Strays, Begun, Whole, Encode, StripRight;
    if b - a < Strays(text, a) {
      WholeNone(text[Begun(text, a)..], b - a - Strays(text, a));
      TornDecodes(text, a, b);
    } else {
      RestDecodes(text, a, b, b - a - Strays(text, a));
    }
  }

  lemma DecodeNothing()
    ensures Decode([]) == ""
  {
  }

  lemma WholeNone(text: string, m: int)
    requires m <= 0
    ensures Whole(text, m) == 0
  {
  }

  lemma StripKeeps(s: nat, u: string, w: nat, p: nat)
    requires w <= |u| && REPLACEMENT !in u
    ensures StripRight(Replacements(s) + (u[..w] + Replacements(p)))
         == if w == 0 then "" else Replacements(s) + u[..w]
  {
    assert Replacements(s) + (u[..w] + Replacements(p)) == (Replacements(s) + u[..w]) + Replacements(p);
    StripsReplacements(Replacements(s) + u[..w], p);
    if w == 0 {
      assert Replacements(s) + u[..w] == "" + Replacements(s);
      StripsReplacements("", s);
    }
  }

  /** Counting whole characters from the start, or from the first one that starts in the window. */
  lemma {:induction false} WholeFrom(text: string, a: nat, m: nat)
    requires a <= |Encode(text)|
    ensures Whole(text, a + Strays(text, a) + m) == Begun(text, a) + Whole(text[Begun(text, a)..], m)
    decreases |text|
  {
    hide EncodeChar;
    if text != "" && a > 0 {
      if a < |EncodeChar(text[0])| {
        assert Begun(text[1..], a - |EncodeChar(text[0])|) == 0;
        assert text[1..][0..] == text[1..] == text[Begun(text, a)..];
      } else {
        WholeFrom(text[1..], a - |EncodeChar(text[0])|, m);
        assert text[1..][Begun(text[1..], a - |EncodeChar(text[0])|)..] == text[Begun(text, a)..];
      }
    } else {
      assert text[0..] == text;
    }
  }

  lemma {:induction false} WholeGrows(text: string, m: int, m': int)
    requires m <= m'
    ensures Whole(text, m) <= Whole(text, m')
    decreases |text|
  {
    hide EncodeChar;
    if text != "" && m >= |EncodeChar(text[0])| {
      WholeGrows(text[1..], m - |EncodeChar(text[0])|, m' - |EncodeChar(text[0])|);
    }
  }

  lemma NewPartOf(s: nat, u: string, w: nat, w': nat)
    requires w <= w' <= |u| && (w > 0 || s == 0)
    ensures NewPart(if w == 0 then "" else Replacements(s) + u[..w], if w' == 0 then "" else Replacements(s) + u[..w'])
         == u[w..w']
  {
    var r := Replacements(s);
    assert (r + u[..w'])[|r + u[..w]|..] == u[w..w'];
  }

  /** One push renders exactly the characters it completes when its window starts on a
      character boundary, or already holds a whole character before the new token. */
  lemma PushRenders(text: string, a: nat, b: nat, c: nat)
    requires REPLACEMENT !in text && a <= b <= c <= |Encode(text)|
    requires Strays(text, a) == 0 || b - a >= 7
    ensures Whole(text, b) <= Whole(text, c)
    ensures NewPart(StripRight(Decode(Encode(text)[a..b])), StripRight(Decode(Encode(text)[a..c])))
         == text[Whole(text, b)..Whole(text, c)]
  {
    hide Decode, EncodeChar, Encode, StripRight, Begun, Replacements, Strays, NewPart, Whole;
    var s, k := Strays(text, a), Begun(text, a);
    var u := text[k..];
    var w, w' := Whole(u, b - a - s), Whole(u, c - a - s);
    WholeGrows(text, b, c);
    WholeGrows(u, b - a - s, c - a - s);
    WindowDecodes(text, a, b);
    WindowDecodes(text, a, c);
    WholeFrom(text, a, b - a - s);
    WholeFrom(text, a, c - a - s);
    if s > 0 {
      SplitAt(text, a);
      WholeSome(u, b - a - s);
    }
    NewPartOf(s, u, w, w');
    assert u[w..w'] == text[k + w..k + w'];
  }

  lemma WholeSome(text: string, m: int)
    requires m >= 4 && |Encode(text)| >= m
    ensures Whole(text, m) > 0
  {
    hide EncodeChar;
  }

  // ----- the stream -----

  lemma {:induction false} ConcatLength(tokens: seq<seq<byte>>)
    requires forall i :: 0 <= i < |tokens| ==> tokens[i] != []
    ensures |Concat(tokens)| >= |tokens|
  {
    if tokens != [] {
      ConcatLength(tokens[1..]);
    }
  }

  function Sent(tokens: seq<seq<byte>>, n: nat): nat
    requires n <= |tokens|
  {
    |Concat(tokens[..n])|
  }

  /** The bytes of tokens i to j are the text's bytes from where token i starts. */
  lemma ConcatSlice(tokens: seq<seq<byte>>, i: nat, j: nat)
    requires i <= j <= |tokens|
    ensures Sent(tokens, i) <= Sent(tokens, j) <= |Concat(tokens)|
    ensures Concat(tokens[i..j]) == Concat(tokens)[Sent(tokens, i)..Sent(tokens, j)]
  {
    hide Concat;
    ConcatParts(tokens, j);
    ConcatParts(tokens[..j], i);
    assert tokens[..j][..i] == tokens[..i] && tokens[..j][i..] == tokens[i..j];
    assert Concat(tokens)[..Sent(tokens, j)] == Concat(tokens[..j]);
  }

  lemma PushIs(text: string, tokens: seq<seq<byte>>, n: nat, lookback: nat)
    requires Spells(tokens, text) && 0 < n <= |tokens|
    ensures var a, b, c := Sent(tokens, Max(0, n - 1 - lookback)), Sent(tokens, n - 1), Sent(tokens, n);
      && a <= b <= c <= |Encode(text)| && b - a >= n - 1 - Max(0, n - 1 - lookback)
      && Increment(tokens[..n], n - 1, lookback)
         == NewPart(StripRight(Decode(Encode(text)[a..b])), StripRight(Decode(Encode(text)[a..c])))
  {
    hide Decode, Concat, StripRight, Encode;
    var window := Max(0, n - 1 - lookback);
    ConcatSlice(tokens, window, n - 1);
    ConcatSlice(tokens, window, n);
    ConcatSlice(tokens, n - 1, n);
    ConcatLength(tokens[window..n - 1]);
    assert tokens[..n][window..n - 1] == tokens[window..n - 1];
    assert tokens[..n][window..] == tokens[window..n];
  }

  /** Pushed one token at a time, the rendered pieces always add up to the characters complete
      so far, when the window looks back over at least seven tokens. */
  lemma {:induction false} Reassembles(text: string, tokens: seq<seq<byte>>, n: nat, lookback: nat)
    requires Spells(tokens, text) && n <= |tokens| && lookback >= 7
    ensures Streamed(tokens, n, lookback) == text[..Whole(text, Sent(tokens, n))]
  {
    hide Decode, StripRight, Encode, Increment, EncodeChar, NewPart;
    if n == 0 {
      assert tokens[..0] == [];
      WholeNone(text, 0);
    } else {
      Reassembles(text, tokens, n - 1, lookback);
      PushIs(text, tokens, n, lookback);
      var a, b, c := Sent(tokens, Max(0, n - 1 - lookback)), Sent(tokens, n - 1), Sent(tokens, n);
      if n - 1 < 7 {
        assert tokens[..0] == [];
        assert a == 0;
      }
      assert Strays(text, 0) == 0;
      PushRenders(text, a, b, c);
      var w, w' := Whole(text, b), Whole(text, c);
      assert text[..w] + text[w..w'] == text[..w'];
    }
  }

  /** The characters complete after m bytes are the longest prefix that fits in them. */
  lemma {:induction false} WholeIsLongest(text: string, m: nat, k: nat)
    requires k <= |text|
    ensures |Encode(text[..k])| <= m <==> k <= Whole(text, m)
    decreases k
  {
    hide EncodeChar;
    if k > 0 {
      assert text[..k][1..] == text[1..][..k - 1];
      if m >= |EncodeChar(text[0])| {
        WholeIsLongest(text[1..], m - |EncodeChar(text[0])|, k - 1);
      }
    }
  }

  /** When the last token is in, the whole text is out. */
  lemma StreamIsDecode(text: string, tokens: seq<seq<byte>>)
    requires Spells(tokens, text)
    ensures Streamed(tokens, |tokens|, LOOKBACK) == text == Decode(Concat(tokens))
  {
    Reassembles(text, tokens, |tokens|, LOOKBACK);
    assert tokens[..|tokens|] == tokens && text[..|text|] == text;
    WholeIsLongest(text, |Encode(text)|, |text|);
    RoundTrip(text);
  }

  // ----- how far back is far enough -----

  ghost predicate AlwaysReassembles(lookback: nat) {
    forall text: string, tokens: seq<seq<byte>>, n: nat | Spells(tokens, text) && n <= |tokens| ::
      Streamed(tokens, n, lookback) == text[..Whole(text, Sent(tokens, n))]
  }

  function Singles(s: seq<byte>): (tokens: seq<seq<byte>>)
    ensures |tokens| == |s| && forall i :: 0 <= i < |s| ==> tokens[i] == [s[i]]
  {
    if s == [] then [] else [[s[0]]] + Singles(s[1..])
  }

  lemma {:induction false} ConcatSingles(s: seq<byte>)
    ensures Concat(Singles(s)) == s
  {
    if s != [] {
      ConcatSingles(s[1..]);
    }
  }

  lemma SinglesSent(s: seq<byte>, n: nat)
    requires n <= |s|
    ensures Sent(Singles(s), n) == n
  {
    assert Singles(s)[..n] == Singles(s[..n]);
    ConcatSingles(s[..n]);
  }

  /** A piece of the wrong length shows that reassembly fails there or one token earlier. */
  lemma WrongPiece(text: string, tokens: seq<seq<byte>>, n: nat, lookback: nat)
    requires Spells(tokens, text) && 0 < n <= |tokens|
    requires |Increment(tokens[..n], n - 1, lookback)|
          != Whole(text, Sent(tokens, n)) - Whole(text, Sent(tokens, n - 1))
    ensures !AlwaysReassembles(lookback)
  {
    hide Increment, Whole, Concat, Encode;
    if Streamed(tokens, n - 1, lookback) == text[..Whole(text, Sent(tokens, n - 1))] {
      assert |Streamed(tokens, n, lookback)| != |text[..Whole(text, Sent(tokens, n))]|;
    }
  }

  /** A window that opens inside a character and holds no whole one before the token that
      completes one renders the torn bytes too. */
  lemma TornWindow(text: string, n: nat, lookback: nat)
    requires REPLACEMENT !in text && 0 < n <= |Encode(text)| && lookback < n
    requires 0 < Strays(text, n - 1 - lookback) <= lookback
    requires Whole(text, n - 1) == Begun(text, n - 1 - lookback) < Whole(text, n)
    ensures !AlwaysReassembles(lookback)
  {
    hide Decode, EncodeChar, StripRight, Concat, Strays, Begun, Whole, Increment, Encode;
    var tokens := Singles(Encode(text));
    var a := n - 1 - lookback;
    ConcatSingles(Encode(text));
    SinglesSent(Encode(text), a);
    SinglesSent(Encode(text), n - 1);
    SinglesSent(Encode(text), n);
    PushIs(text, tokens, n, lookback);
    TornPiece(text, a, n - 1);
    WrongPiece(text, tokens, n, lookback);
  }

  lemma TornPiece(text: string, a: nat, b: nat)
    requires REPLACEMENT !in text && a <= b < |Encode(text)|
    requires 0 < Strays(text, a) <= b - a && Whole(text, b) == Begun(text, a) < Whole(text, b + 1)
    ensures |NewPart(StripRight(Decode(Encode(text)[a..b])), StripRight(Decode(Encode(text)[a..b + 1])))|
          > Whole(text, b + 1) - Whole(text, b)
  {
    hide Decode, EncodeChar, Encode, StripRight, Begun, Strays, Whole;
    var s := Strays(text, a);
    WindowDecodes(text, a, b);
    WindowDecodes(text, a, b + 1);
    WholeFrom(text, a, b - a - s);
    WholeFrom(text, a, b + 1 - a - s);
  }

  /** Seven tokens back are always enough and six are not, so the code's eight leave one spare. */
  lemma LookbackExactlySeven(lookback: nat)
    ensures AlwaysReassembles(lookback) <==> lookback >= 7
  {
    if lookback >= 7 {
      forall text: string, tokens: seq<seq<byte>>, n: nat | Spells(tokens, text) && n <= |tokens|
        ensures Streamed(tokens, n, lookback) == text[..Whole(text, Sent(tokens, n))]
      {
        Reassembles(text, tokens, n, lookback);
      }
    } else if lookback == 0 {
      NoLookback();
    } else if lookback <= 3 {
      TornWindow("\U{1F680}a", 5, lookback);
    } else {
      TornWindow("\U{1F680}\U{1F680}", 8, lookback);
    }
  }

  /** Without looking back a character of two one-byte tokens is never rendered. */
  lemma NoLookback()
    ensures !AlwaysReassembles(0)
  {
    hide Decode, StripRight, Increment;
    var text := "\U{E9}";
    var tokens := Singles(Encode(text));
    ConcatSingles(Encode(text));
    assert Encode(text[1..]) == [];
    assert |EncodeChar(text[0])| == 2;
    SinglesSent(Encode(text), 1);
    SinglesSent(Encode(text), 2);
    PushIs(text, tokens, 2, 0);
    WindowDecodes(text, 1, 1);
    WindowDecodes(text, 1, 2);
    WrongPiece(text, tokens, 2, 0);
  }
}
