/** UTF-8 (section 3 of RFC 3629), and a decoder that puts U+FFFD in place of what is not
    well formed: one for each longest run of bytes that begins a well-formed character. */
module Utf8 {

  type byte = x: int | 0 <= x < 256

  const REPLACEMENT: char := '\U{FFFD}'

  function EncodeChar(c: char): (u: seq<byte>)
    ensures 1 <= |u| <= 4
  {
    var n := c as int;
    if n < 0x80 then [n]
    else if n < 0x800 then [0xC0 + n / 64, 0x80 + n % 64]
    else if n < 0x10000 then [0xE0 + n / 4096, 0x80 + n / 64 % 64, 0x80 + n % 64]
    else [0xF0 + n / 262144, 0x80 + n / 4096 % 64, 0x80 + n / 64 % 64, 0x80 + n % 64]
  }

  function Encode(text: string): seq<byte> {
    if text == "" then [] else EncodeChar(text[0]) + Encode(text[1..])
  }

  /** How many bytes the character that starts with b takes; 0 when none does. */
  function Need(b: byte): nat {
    if b < 0x80 then 1
    else if 0xC2 <= b < 0xE0 then 2
    else if 0xE0 <= b < 0xF0 then 3
    else if 0xF0 <= b < 0xF5 then 4
    else 0
  }

  predicate Continues(b: byte) {
    0x80 <= b < 0xC0
  }

  /** The second byte also excludes overlong forms, surrogates and values over 0x10FFFF. */
  predicate SecondOk(b0: byte, b1: byte) {
    && Continues(b1)
    && (b0 == 0xE0 ==> b1 >= 0xA0) && (b0 == 0xED ==> b1 < 0xA0)
    && (b0 == 0xF0 ==> b1 >= 0x90) && (b0 == 0xF4 ==> b1 < 0x90)
  }

  /** How many bytes the decoder consumes at once: a character, or the longest beginning of one. */
  function Take(s: seq<byte>): (k: nat)
    requires |s| > 0
    ensures 1 <= k <= |s|
  {
    var n := Need(s[0]);
    if n <= 1 || |s| == 1 || !SecondOk(s[0], s[1]) then 1
    else if n == 2 || |s| == 2 || !Continues(s[2]) then 2
    else if n == 3 || |s| == 3 || !Continues(s[3]) then 3
    else 4
  }

  predicate WellFormed(u: seq<byte>) {
    |u| > 0 && Take(u) == |u| == Need(u[0])
  }

  /** The bits a byte carries besides its marker. */
  function Bits(b: int, marker: int): int {
    b - marker
  }

  function CharOf(u: seq<byte>): char
    requires WellFormed(u)
  {
    var n :=
      if |u| == 1 then u[0]
      else if |u| == 2 then Bits(u[0], 0xC0) * 64 + Bits(u[1], 0x80)
      else if |u| == 3 then Bits(u[0], 0xE0) * 4096 + Bits(u[1], 0x80) * 64 + Bits(u[2], 0x80)
      else Bits(u[0], 0xF0) * 262144 + Bits(u[1], 0x80) * 4096 + Bits(u[2], 0x80) * 64 + Bits(u[3], 0x80);
    n as char
  }

  function Decode(s: seq<byte>): string {
    if s == [] then ""
    else
      var k := Take(s);
      (if k == Need(s[0]) then [CharOf(s[..k])] else [REPLACEMENT]) + Decode(s[k..])
  }

  // ----- characters and well-formed byte strings correspond one to one -----

  lemma EncodeThenDecode(c: char)
    ensures WellFormed(EncodeChar(c)) && CharOf(EncodeChar(c)) == c
  {
    var n := c as int;
    assert n / 64 / 64 == n / 4096;
    assert n / 4096 / 64 == n / 262144;
  }

  /** The last six bits of a number, and the others. */
  lemma SixBits(q: int, r: int)
    requires 0 <= r < 64
    ensures (q * 64 + r) / 64 == q && (q * 64 + r) % 64 == r
  {
  }

  lemma TwoBytes(u: seq<byte>)
    requires WellFormed(u) && |u| == 2
    ensures EncodeChar(CharOf(u)) == u
  {
    SixBits(Bits(u[0], 0xC0), Bits(u[1], 0x80));
  }

  lemma ThreeBytes(u: seq<byte>)
    requires WellFormed(u) && |u| == 3
    ensures EncodeChar(CharOf(u)) == u
  {
    var high := Bits(u[0], 0xE0) * 64 + Bits(u[1], 0x80);
    SixBits(high, Bits(u[2], 0x80));
    SixBits(Bits(u[0], 0xE0), Bits(u[1], 0x80));
    assert CharOf(u) as int == high * 64 + Bits(u[2], 0x80);
    assert CharOf(u) as int / 4096 == high / 64;
  }

  lemma FourBytes(u: seq<byte>)
    requires WellFormed(u) && |u| == 4
    ensures EncodeChar(CharOf(u)) == u
  {
    var top := Bits(u[0], 0xF0) * 64 + Bits(u[1], 0x80);
    var high := top * 64 + Bits(u[2], 0x80);
    SixBits(high, Bits(u[3], 0x80));
    SixBits(top, Bits(u[2], 0x80));
    SixBits(Bits(u[0], 0xF0), Bits(u[1], 0x80));
    assert CharOf(u) as int == high * 64 + Bits(u[3], 0x80);
    assert CharOf(u) as int / 4096 == high / 64 && CharOf(u) as int / 262144 == top / 64;
  }

  lemma DecodeThenEncode(u: seq<byte>)
    requires WellFormed(u)
    ensures EncodeChar(CharOf(u)) == u
  {
    if |u| == 2 {
      TwoBytes(u);
    } else if |u| == 3 {
      ThreeBytes(u);
    } else if |u| == 4 {
      FourBytes(u);
    }
  }

  // ----- decoding whole texts -----

  lemma TakeWhole(u: seq<byte>, rest: seq<byte>)
    requires WellFormed(u)
    ensures Take(u + rest) == |u| && (u + rest)[..|u|] == u && (u + rest)[|u|..] == rest
  {
  }

  lemma DecodeOne(c: char, rest: seq<byte>)
    ensures Decode(EncodeChar(c) + rest) == [c] + Decode(rest)
  {
    EncodeThenDecode(c);
    TakeWhole(EncodeChar(c), rest);
  }

  /** Encoded text decodes to itself, whatever follows it. */
  lemma {:induction false} DecodeText(text: string, rest: seq<byte>)
    ensures Decode(Encode(text) + rest) == text + Decode(rest)
    decreases |text|
  {
    if text == "" {
      assert Encode(text) + rest == rest;
    } else {
      assert Encode(text) + rest == EncodeChar(text[0]) + (Encode(text[1..]) + rest);
      DecodeOne(text[0], Encode(text[1..]) + rest);
      DecodeText(text[1..], rest);
      assert [text[0]] + (text[1..] + Decode(rest)) == text + Decode(rest);
    }
  }

  lemma RoundTrip(text: string)
    ensures Decode(Encode(text)) == text
  {
    DecodeText(text, []);
    assert Encode(text) + [] == Encode(text);
  }

  lemma {:induction false} EncodeConcat(a: string, b: string)
    ensures Encode(a + b) == Encode(a) + Encode(b)
    decreases |a|
  {
    if a == "" {
      assert a + b == b;
    } else {
      assert (a + b)[1..] == a[1..] + b;
      EncodeConcat(a[1..], b);
    }
  }

  // ----- decoding anything -----

  /** The first k bytes begin the encoding of some character. */
  ghost predicate Begins(s: seq<byte>, k: nat) {
    k <= |s| && exists c: char :: s[..k] <= EncodeChar(c)
  }

  ghost predicate StartsWithChar(s: seq<byte>) {
    exists c: char :: EncodeChar(c) <= s
  }

  /** Bytes shared with a character's encoding are taken together. */
  lemma TakesShared(s: seq<byte>, c: char, k: nat)
    requires 0 < k <= |s| && s[..k] <= EncodeChar(c)
    ensures Take(s) >= k
    ensures k == |EncodeChar(c)| ==> Take(s) == k == Need(s[0])
  {
    var u := EncodeChar(c);
    EncodeThenDecode(c);
    assert s[0] == u[0];
    assert k > 1 ==> s[1] == u[1];
    assert k > 2 ==> s[2] == u[2];
    assert k > 3 ==> s[3] == u[3];
  }

  /** What is taken without being a character can be completed to one, if it is more than a byte. */
  lemma TakenBegins(s: seq<byte>)
    requires |s| > 0 && 1 < Take(s)
    ensures Begins(s, Take(s))
  {
    var k, n := Take(s), Need(s[0]);
    var u := if k == n then s[..k] else if k + 1 == n then s[..k] + [0x80] else s[..k] + [0x80, 0x80];
    assert WellFormed(u);
    DecodeThenEncode(u);
    assert s[..k] <= EncodeChar(CharOf(u));
  }

  /** Any bytes decode one character at a time where one stands, and elsewhere to one replacement for the
      longest run that begins a character, or for a single byte where none does. */
  lemma DecodesLongest(s: seq<byte>) returns (k: nat)
    requires s != []
    ensures 1 <= k <= |s|
    ensures StartsWithChar(s) ==> exists c: char :: EncodeChar(c) == s[..k] && Decode(s) == [c] + Decode(s[k..])
    ensures !StartsWithChar(s) ==>
      && Decode(s) == [REPLACEMENT] + Decode(s[k..])
      && (k == 1 || Begins(s, k)) && forall j: nat | k < j <= |s| :: !Begins(s, j)
  {
    hide EncodeChar, Take, Need, CharOf;
    k := Take(s);
    if StartsWithChar(s) {
      var c: char :| EncodeChar(c) <= s;
      var n := |EncodeChar(c)|;
      assert s[..n] == EncodeChar(c);
      assert s == EncodeChar(c) + s[n..];
      TakesShared(s, c, n);
      DecodeOne(c, s[n..]);
    } else {
      NotAChar(s);
      if k > 1 {
        TakenBegins(s);
      }
      forall j: nat | k < j <= |s| ensures !Begins(s, j) {
        if Begins(s, j) {
          var c: char :| s[..j] <= EncodeChar(c);
          TakesShared(s, c, j);
        }
      }
    }
  }

  lemma NotAChar(s: seq<byte>)
    requires s != [] && !StartsWithChar(s)
    ensures Take(s) != Need(s[0])
  {
    if Take(s) == Need(s[0]) {
      var u := s[..Take(s)];
      assert WellFormed(u);
      DecodeThenEncode(u);
    }
  }

  // ----- decoding a slice of an encoded text -----

  /** Bytes that only continue a character decode to one replacement each. */
  lemma {:induction false} DecodeStrays(strays: seq<byte>, rest: seq<byte>)
    requires forall i :: 0 <= i < |strays| ==> Continues(strays[i])
    ensures Decode(strays + rest) == Replacements(|strays|) + Decode(rest)
    decreases |strays|
  {
    if strays == [] {
      assert strays + rest == rest;
    } else {
      var s := strays + rest;
      assert Take(s) == 1 && s[1..] == strays[1..] + rest;
      DecodeStrays(strays[1..], rest);
      assert [REPLACEMENT] + (Replacements(|strays| - 1) + Decode(rest)) == Replacements(|strays|) + Decode(rest);
    }
  }

  function Replacements(n: nat): string {
    if n == 0 then "" else [REPLACEMENT] + Replacements(n - 1)
  }

  lemma TailContinues(c: char)
    ensures forall i :: 1 <= i < |EncodeChar(c)| ==> Continues(EncodeChar(c)[i])
  {
  }

  /** A character cut short decodes to one replacement. */
  lemma DecodePartial(c: char, k: nat)
    requires 0 < k < |EncodeChar(c)|
    ensures Decode(EncodeChar(c)[..k]) == [REPLACEMENT]
  {
    var u := EncodeChar(c);
    EncodeThenDecode(c);
    assert Take(u[..k]) == k;
    assert u[..k][k..] == [];
  }

  /** How many characters of the text lie wholly within its first m bytes. */
  function Whole(text: string, m: int): (w: nat)
    ensures w <= |text|
  {
    if text == "" || m < |EncodeChar(text[0])| then 0
    else 1 + Whole(text[1..], m - |EncodeChar(text[0])|)
  }

  /** How many characters of the text start before byte a. */
  function Begun(text: string, a: int): (k: nat)
    ensures k <= |text|
  {
    if text == "" || a <= 0 then 0 else 1 + Begun(text[1..], a - |EncodeChar(text[0])|)
  }

  /** How many bytes from byte a on belong to a character that starts before it. */
  function Strays(text: string, a: int): (s: nat)
    ensures s <= 3
  {
    if text == "" then 0
    else if a <= 0 then 0
    else if a < |EncodeChar(text[0])| then |EncodeChar(text[0])| - a
    else Strays(text[1..], a - |EncodeChar(text[0])|)
  }

  lemma {:induction false} DecodeHead(text: string, m: nat)
    requires m <= |Encode(text)|
    ensures exists p: nat :: Decode(Encode(text)[..m]) == text[..Whole(text, m)] + Replacements(p)
    decreases |text|
  {
    hide EncodeChar, Take, Need, CharOf, SecondOk;
    if text == "" {
      assert Decode(Encode(text)[..m]) == text[..0] + Replacements(0);
    } else {
      var u, more := EncodeChar(text[0]), Encode(text[1..]);
      if m < |u| {
        assert (u + more)[..m] == u[..m];
        if m > 0 {
          DecodePartial(text[0], m);
          assert Replacements(1) == [REPLACEMENT] + Replacements(0);
          assert Decode(Encode(text)[..m]) == text[..0] + Replacements(1);
        } else {
          assert Decode(Encode(text)[..m]) == text[..0] + Replacements(0);
        }
      } else {
        assert (u + more)[..m] == u + more[..m - |u|];
        DecodeHead(text[1..], m - |u|);
        DecodeOne(text[0], more[..m - |u|]);
        var p: nat :| Decode(more[..m - |u|]) == text[1..][..Whole(text[1..], m - |u|)] + Replacements(p);
        assert [text[0]] + text[1..][..Whole(text[1..], m - |u|)] == text[..Whole(text, m)];
        assert Decode(Encode(text)[..m]) == text[..Whole(text, m)] + Replacements(p);
      }
    }
  }

  /** Inside the first character. */
  lemma SplitFirst(text: string, a: nat)
    requires text != "" && 0 < a < |EncodeChar(text[0])|
    ensures text[Begun(text, a)..] == text[1..] && Strays(text, a) == |EncodeChar(text[0])| - a
  {
    hide EncodeChar;
    assert Begun(text[1..], a - |EncodeChar(text[0])|) == 0;
  }

  /** After it. */
  lemma SplitLater(text: string, a: nat)
    requires text != "" && a >= |EncodeChar(text[0])|
    ensures var k := |EncodeChar(text[0])|;
      && Strays(text, a) == Strays(text[1..], a - k)
      && text[Begun(text, a)..] == text[1..][Begun(text[1..], a - k)..]
  {
    hide EncodeChar;
  }

  /** From byte a on: the rest of the character that byte is in, then whole characters. */
  lemma {:induction false} SplitAt(text: string, a: nat)
    requires a <= |Encode(text)|
    ensures var s, rest := Strays(text, a), Encode(text[Begun(text, a)..]);
      && |Encode(text)| - a == s + |rest|
      && Encode(text)[a + s..] == rest
      && forall i :: a <= i < a + s ==> Continues(Encode(text)[i])
    decreases |text|
  {
    hide EncodeChar, Take, Need, CharOf, SecondOk;
    if text != "" && a > 0 {
      var u, more := EncodeChar(text[0]), Encode(text[1..]);
      TailContinues(text[0]);
      if a < |u| {
        SplitFirst(text, a);
        assert (u + more)[|u|..] == more;
      } else {
        SplitAt(text[1..], a - |u|);
        SplitLater(text, a);
        var s := Strays(text, a);
        assert (u + more)[a + s..] == more[a - |u| + s..];
        forall i | a <= i < a + s ensures Continues(Encode(text)[i]) {
          assert Encode(text)[i] == more[i - |u|];
        }
      }
    } else {
      assert text[0..] == text;
      assert Encode(text)[0..] == Encode(text);
    }
  }
}
